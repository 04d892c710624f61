# Izanagi: a verified model

Izanagi is a thin GPU API over Vulkan. This project models its hard core in Dafny and proves properties of it:

* **The lifetime protocol of a queue.** Command buffers retain buffers, textures and pipelines; `queue_submit` claims
  uninitialised textures, reserves a retirement batch, and either commits or rolls back; `queue_process_events` drains
  what the GPU timeline has passed. `Lifetime*.dfy`, `Submission.dfy` and `LifetimeRuns.dfy` give the protocol as
  functions on a state, with the invariant every step keeps and what it means for whole runs; `LifetimeEffects.dfy`
  says of each call, in its inputs alone, what it does and what holds from then on. `Device.dfy` is the
  imperative object: each of its methods, loops included, is proved to take exactly its protocol step. Underneath
  are `Records.dfy` (reference counts), `CommandPools.dfy`, `RetireQueue.dfy`, `Descriptors.dfy`,
  `TwoLevelBitset.dfy` and `SlotMap.dfy` (the generational free-list map). `Handles.dfy` puts the slot map under
  the device, so that what the protocol says of handles holds of 64-bit texture handles; `Views.dfy` does the same with
  a descriptor region and its bitset.
* **The asynchronous pipeline compiler** (`PipelineDedup.dfy`, `PipelineRuns.dfy`, `PipelineCompiler.dfy`): a
  double-checked dedup map with its lock, a reference count with a locked recheck before destruction, and a worker,
  under every interleaving of their atomic actions.
* **The static-graphics-state fallback** (`StaticVariants.dfy`): a dirty-bit cache of pipeline variants against the
  dynamic-state route.
* **The byte encoders** of the example image writer: DEFLATE (`Bits`, `Inflate`, `Deflate`, `Adler`, `Zlib`), PNG
  filters (`Png.dfy`), and the TGA and HDR run-length coders (`Rle.dfy`). Each decoder is written after its format's
  standard (RFC 1950, RFC 1951, section 9 of the PNG specification) and proved to undo the encoder.
* **Address lookup** (`PointerMap.dfy`), **copy sizes** (`CopyBytes.dfy`) and **frame pacing** with the argument ring
  (`Pacing.dfy`).

Native calls are inputs: which of them succeed, the completed timeline counter, device addresses. A record is
identified by its incarnation: a slot used again holds another record. In the lifetime protocol one API call or
drain is one step; in the pipeline compiler each access to a shared count is. `dafny verify dfyconfig.toml` checks
everything.

## What the proofs say about the code

Where a promise does not hold as stated, the model keeps the code's behaviour and gives the exact condition.

* The zlib stored fallback emits no block for empty input, so the output decodes if and only if there is input.
* On the static route `cmd_begin_render_pass` does not reset the depth-stencil shadow. A draw's baked state is the one
  in effect if and only if its pass has set a depth-stencil state, or the last one set bakes the defaults.
* Compute pipelines overwrite the tracked base of the static route. When one was bound last, a recorded draw still
  agrees with the dynamic route if and only if the state is the default one, no variant is left from an earlier draw,
  and no draw since the last graphics bind has bound the compute pipeline or a variant of it.
* A texture freed while it awaits its transition loses its layout barrier when a submission fails after it has claimed
  the pending textures, although a recording may still use it.
* The release loop of `reset_command_pool` never releases anything: a pool is reset only when none of its buffers is
  out, and then they retain nothing. Buffers that were abandoned keep their references and their pool, although
  `docs/Architecture.md:109` promises their release at pool reset.
* `queue_submit` fails in four ways that leave the caller's buffers checked out with their references (no scratch
  arena, invalid semaphores or waits, the injected failure, no internal command buffer); every other failure gives
  them back.
* Of a check-out's failures, only that of the begin call leaves a buffer out, which nobody was given.
* `process_retire_batch` marks the texture of every item Released, also when the user still owns it; such a texture is
  past its transition.
* A pipeline record can be destroyed twice. `find_record_locked` tests a count and increments it later; the lock it
  holds does not keep `release_pipeline_ref` from dropping the last reference in between. If the lookup's reference
  is taken and dropped again before the first thread rechecks, both threads see zero and both destroy. Runs in which
  no last reference is dropped in that gap, and only those, are safe; there the recheck always sees zero. Callers are
  safe who keep a reference to an equal pipeline across a request. Deduplication, exact counts, one compilation and
  one result hold in every run.
* Stored entry points are compared as C strings: a request with a NUL in an entry point never finds its record.
* `serialize_variant_key` writes 35 bytes; its declared size is 43.
* Slot-map handles decode only while the generation is below 2^31, and slots are released only through handles that
  resolve. A slot that gets there is worn out: no handle resolves to its record, not even the one that its creation
  returned, and it is never released; 2^30 records in turn bring it there. A free at the last generation before that
  loses its reference. So generations stop at 2^31 + 1, and a dead handle never resolves again before the next clear.
* A stale descriptor handle stays rejected until its slot was bumped 2^16 times more, and is accepted then if the slot
  is allocated.
* malloc's last range check cannot fail, and no divisor of the copy size is ever zero.
* The TGA scan ends a raw packet at any pixel equal to the one two before it, not only at runs.

## Model

| member | source | states |
|---|---|---|
| LifetimeRuns.NothingInUseIsDestroyed | src/vk/commands.cpp:128-185 | In every state of every run, whatever has a public handle or a worker job, whatever a checked-out command buffer retains, whatever an incomplete successful submission named or transitions, and every texture a view owns, is still a live record |
| LifetimeRuns.RunInv | src/vk/commands.cpp:419-865 | Every run of API calls, native outcomes and GPU progress keeps the invariant: each record count equals its public handles plus the references of recordings, queued retirements, view owners, worker jobs and conservatively kept items |
| LifetimeRuns.StepInv | src/vk/commands.cpp:419-865 | Each single call or drain keeps that invariant |
| LifetimeRuns.NothingLeaks | src/vk/commands.cpp:380-415 | Records are left exactly when holders are left |
| LifetimeRuns.DestroyedExactlyOnce | src/vk/resources.cpp:421-449 | After any run, a record that the run created is destroyed if and only if nobody holds it, in exactly one step of the run; a held one in none |
| LifetimeRuns.DestroyedForGood | src/vk/resources.cpp:421-449 | From any state on, a record is live or destroyed, never both, and once destroyed stays so |
| LifetimeRuns.Ledgers | src/vk/resources.cpp:421-449 | The records created so far are the live and the destroyed ones together, each destroyed in one step at most |
| LifetimeRuns.PoolsAlways | src/vk/commands.cpp:187-227 | At most one buffer of a command pool is out, a pool with none out retains nothing, and a pool becomes usable again only when all submissions of its buffers have completed |
| LifetimeRuns.OnlySubmitChecksIn | src/vk/commands.cpp:445-463 | A buffer that is out comes in only by a submission that names it; every other call leaves it out with what it retains, and failed if it was |
| LifetimeRuns.AbandonedStays | src/vk/commands.cpp:96-121 | So an abandoned buffer keeps its pool and its references in every further run |
| LifetimeRuns.MarkedPast | src/vk/commands.cpp:380-400 | A texture that is queued for release and still has its handle is past its transition |
| LifetimeRuns.BarriersAlways | src/vk/commands.cpp:527-611 | The layout-discarding barrier of a texture is in at most one successful submission, once, and any successful submission naming a texture not freed by then contains or follows it |
| LifetimeRuns.RetirementAlways | src/vk/commands.cpp:321-377 | The retirement queue is sorted with one batch per value, non-empty batches are due at published values, and draining takes exactly the batches whose value has completed |
| LifetimeRuns.SlotsAlways | src/vk/resources.cpp:253-292 | A descriptor slot is free for reuse only after the value recorded for its last free has completed, and a retiring slot has exactly one queued retirement, with its generation, unless storage failed; the value itself is in FreeViewDefers |
| LifetimeRuns.InitialInv | src/vk/device.cpp:2416-2446 | A new device satisfies the invariant |
| LifetimeEffects.FreeAfterDefers | src/vk/resources.cpp:472-490 | free_after on a handle, for a submission's value or else the published timeline: the handle stops resolving, no count changes, and exactly one more item, the reference, is due, at that value; without storage it is kept for good |
| LifetimeEffects.FreedAfterStays | src/vk/device.cpp:2129-2157 | From then on, in every further run, the record is live until that value has completed, and for good when nothing could be stored |
| LifetimeEffects.FreeViewDefers | src/vk/resources.cpp:223-299 | A free of a view with exactly its generation makes the slot retire with the next generation and the same owner, and exactly one more item, that retirement, is due at the submission's value or else the published timeline; any other free changes nothing |
| LifetimeEffects.FreedViewStays | src/vk/resources.cpp:492-500 | From then on, in every further run, the slot goes on retiring with that generation until the value has completed, and for good when nothing could be stored |
| LifetimeEffects.RetainsOnce | src/vk/commands.cpp:128-185 | A command that uses a record by a handle that resolves: the buffer retains it exactly once afterwards, its count is one higher if and only if it was not retained before, and no other count, recording or flag changes |
| LifetimeEffects.RetainsNothing | src/vk/commands.cpp:128-185 | By a handle that does not resolve, a texture or pointer fails the recording and a pipeline changes nothing |
| LifetimeEffects.RetainedStays | src/vk/commands.cpp:123-150 | In every further run what a command used is live and retained, and its buffer out, until a submission names the buffer |
| LifetimeEffects.SubmittedStays | src/vk/commands.cpp:837-862 | If that submission succeeds, what the command used is live until the submission's value has completed, whatever runs before and after |
| LifetimeEffects.FailedRejected | src/vk/commands.cpp:437-463 | A recording that has failed, by a stale handle or otherwise, makes every later submission that names its buffer fail |
| LifetimeEffects.StartTakes | src/vk/commands.cpp:187-298 | A check-out takes the first reusable pool and no other; a buffer comes out if and only if pool and buffer can be had, the caller gets it if and only if it begins too, and then it has not failed and retains nothing |
| LifetimeEffects.StartTakesNone | src/vk/commands.cpp:199-224 | Without a reusable pool nothing changes and no buffer is yielded |
| LifetimeEffects.DrainTakes | src/vk/device.cpp:2416-2446 | After a drain exactly the items due later than the completed value are left, at their values, and only records and slots have changed besides |
| LifetimeEffects.DrainFrees | src/vk/resources.cpp:253-292 | After a drain a slot is free without an owner if it was retiring with its value completed and not kept; every other slot is as it was |
| LifetimeEffects.DrainMarks | src/vk/commands.cpp:380-400 | A drain marks Released exactly the live textures that had a due reference |
| LifetimeEffects.DrainCounts | src/vk/commands.cpp:380-415 | In a drain a count falls by exactly the record's references that left the queue and its descriptors that were freed |
| LifetimeEffects.StepMoves | src/vk/resources.cpp:450-468 | What creation, pipeline requests, worker jobs and free do to handles, job references and counts, each exactly; a free that does not resolve changes nothing |
| LifetimeEffects.FreeMarks | src/vk/resources.cpp:450-490 | free and free_after mark a texture that is still live Released, and change no other record's state |
| LifetimeEffects.HandleResolvesExactly | src/vk/resources.cpp:450-490 | After any run a buffer or texture handle resolves if and only if it was created and neither free nor free_after named it since |
| LifetimeEffects.ViewTakes | src/vk/resources.cpp:544-588 | A new view takes its free slot with the next generation and the owner, whose count rises by one |
| LifetimeEffects.ViewRefused | src/vk/resources.cpp:544-588 | A stale owner changes nothing; a failed descriptor write leaves the slot free, a generation on, and no count changed |
| LifetimeEffects.ViewStays | src/vk/resources.cpp:223-250 | In every run a view keeps its slot, generation and owner until a free with its own slot and generation |
| Records.ReleaseMany | src/vk/commands.cpp:744-766 | Giving back the references of one outgoing holder leaves the other holders' counts exact, destroys exactly what nobody holds, and drops destroyed textures from the pending list |
| Records.ReleaseOne | src/vk/resources.cpp:421-449 | One release on a held record keeps exact counts and destroys at zero |
| Records.RetainMany | src/vk/commands.cpp:527-534 | Taking preparation references raises exactly the listed counts and no texture state |
| Lifetime.CreatedInv | src/vk/resources.cpp:305-408 | malloc and create_texture keep the invariant; a new texture awaits its transition |
| Lifetime.FreedInv | src/vk/resources.cpp:450-468 | free keeps the invariant; a stale handle is a no-op |
| Lifetime.FreedAfterInv | src/vk/resources.cpp:472-490 | free_after keeps the invariant, also when its retirement cannot be stored |
| Lifetime.NewPipelineInv | src/vk/pipeline.cpp:1160-1168 | A missed pipeline request (two references) keeps the invariant |
| Lifetime.HitPipelineInv | src/vk/pipeline.cpp:1092-1104 | A dedup hit keeps the invariant |
| Lifetime.JobDoneInv | src/vk/pipeline.cpp:855-861 | The worker giving back a job's reference keeps the invariant |
| LifetimeRecording.StartedInv | src/vk/commands.cpp:187-298 | Starting a recording keeps the invariant, whichever native call fails |
| LifetimeRecording.ResetSafe | src/vk/commands.cpp:96-121 | When a pool is reset no buffer of it is out, its submissions have completed, and the release loop of the reset finds nothing to release |
| LifetimeRecording.BeginLeaks | src/vk/commands.cpp:199-266 | A check-out leaves a buffer out exactly when pool and buffer can be had, and yields it exactly when the begin call succeeds too |
| LifetimeRecording.RetainedInInv | src/vk/commands.cpp:128-185 | Retaining a texture, buffer or pipeline keeps the invariant, on hits, repeats and stale handles; what it retains is in RetainsOnce |
| LifetimeRetirement.ViewCreatedInv | src/vk/resources.cpp:544-588 | Creating a view or sampler keeps the invariant, with the rollback of a failed descriptor write |
| LifetimeRetirement.ViewFreedInv | src/vk/resources.cpp:223-299 | An accepted view free keeps the invariant, duplicates being no-ops |
| LifetimeRetirement.MidwayAll | src/vk/commands.cpp:380-415 | Processing the drained items in order keeps counts and slots exact at every item: each reference is given back once, each slot retired once |
| LifetimeRetirement.DrainedInv | src/vk/device.cpp:2416-2446 | Draining keeps the invariant |
| Submission.SubmitInv | src/vk/commands.cpp:419-865 | Every outcome of queue_submit keeps the invariant |
| Submission.SubmitUndone | src/vk/commands.cpp:726-818 | A submission publishes exactly the next value or undoes everything: timeline, log, handles, slots and queued retirements stay, and what is given back is what the buffers retained; which of the two is in SucceedsExactly |
| Submission.SucceedsExactly | src/vk/commands.cpp:419-865 | A submission publishes the next value if and only if: there is scratch, no submitted buffer has failed, the semaphores are valid, no failure is injected, nothing is pending or an internal buffer can be had from the first reusable pool, the scratch suffices, a batch can be stored, and the native submit accepts |
| Submission.UsableIs | src/vk/commands.cpp:199-223 | A pool passes the search if and only if no buffer of it is out and every submission of one has completed |
| Submission.SubmitDue | src/vk/commands.cpp:777-862 | What is due after a submission: exactly what was, and after a success also, at the new value, what the buffers retained and the pending textures |
| Submission.SubmitDone | src/vk/commands.cpp:820-865 | After a success timeline and log are one longer, and exactly one more reference per pending texture is held; handles, slots and the rest stay |
| Submission.SucceededCounts | src/vk/commands.cpp:820-862 | After a success each count has risen by exactly the pending list's references |
| Submission.InternalReturned | src/vk/commands.cpp:536-565 | The internal buffer's pool after a submission past the claim: nothing retained, nothing out unless the begin call failed, and reset after the new value if the submission succeeded |
| Submission.SubmitPending | src/vk/commands.cpp:729-742 | After validation, the pending texture list is empty on success, and on failure is what it was, in order, without the textures freed meanwhile |
| Submission.FailedCounts | src/vk/commands.cpp:744-766 | After a failed submission each count has fallen by exactly the buffers' own references |
| Submission.GivesBack | src/vk/commands.cpp:419-767 | A submitted buffer is checked in, retaining nothing, with the new value as its pool's if the submission succeeded, if and only if a recording error was found or the claim was passed; otherwise nothing of it changes |
| Submission.OthersKept | src/vk/commands.cpp:729-767 | A pool whose buffer is not submitted is left as it is, unless the internal buffer comes from it |
| Submission.SubmitLog | src/vk/commands.cpp:820-865 | A successful submission names what its buffers retained and transitions the whole pending list |
| Submission.SubmitBarrier | src/vk/commands.cpp:527-611 | After success a texture has had its barrier if and only if it had it before or was pending; for an unfreed texture that always holds |
| Submission.LostBarrier | src/vk/commands.cpp:731-738 | A texture freed while pending loses its barrier when a submission fails after it has claimed the pending textures, and a later submission that still uses it has none |
| LifetimeRuns.BarrierLost | src/vk/commands.cpp:731-738 | The run that shows it, from a new device with three pools: the last submission names a texture that no submission had a barrier for |
| Submission.SentInv | src/vk/commands.cpp:820-862 | The commit keeps the invariant: every moved reference is due at the new value |
| Submission.SentQueue | src/vk/commands.cpp:777-792 | The batch reserved before the native submit has room for every reference the commit moves |
| Submission.RolledBackInv | src/vk/commands.cpp:729-767 | The rollback re-establishes the invariant |
| Submission.StartedReady | src/vk/commands.cpp:536-540 | The internal command buffer comes from a pool of its own |
| Devices.Device.Submit | src/vk/commands.cpp:419-865 | The imperative submission takes exactly the protocol step, on every path, and returns success if and only if the inputs allow it |
| Devices.Device.Attempt | src/vk/commands.cpp:769-865 | From reservation to outcome, likewise: success if and only if scratch suffices, the batch can be stored and the native submit accepts |
| Devices.Device.Commit | src/vk/commands.cpp:820-862 | Publishes the value, initialises the transitioned textures, accounts the pools and fills the reserved batch within its capacity |
| Devices.Device.Rollback | src/vk/commands.cpp:729-767 | Requeues pending textures in order, gives back preparation references, checks buffers in and gives back what they retained |
| Devices.Device.Unclaim | src/vk/commands.cpp:539-552 | Undoes the claim when no internal buffer can be started |
| Devices.Device.DropBuffers | src/vk/commands.cpp:445-463 | Checks rejected buffers in and gives back exactly what they retained |
| Devices.Device.ClaimPending | src/vk/commands.cpp:527-534 | Empties the pending list and takes one reference per texture |
| Devices.Device.CommitBuffers | src/vk/commands.cpp:837-863 | Pool accounting and reference transfer per buffer; every push stays within the reservation |
| Devices.Device.ReleaseRef | src/vk/resources.cpp:421-449 | Decrements a live record; the last reference unlists and destroys it |
| Devices.Device.ReleaseList | src/vk/commands.cpp:754-765 | Releases a list without ever meeting a destroyed record |
| Devices.Device.Unlist | src/vk/resources.cpp:433-442 | Removes the first occurrence of a texture from the pending list |
| Devices.Device.Free | src/vk/resources.cpp:450-468 | free as a protocol step |
| Devices.Device.FreeAfter | src/vk/resources.cpp:472-490 | free_after as the protocol step of FreeAfterDefers |
| Devices.Device.PickPool | src/vk/commands.cpp:199-223 | The first pool with nothing out that is new or has retired |
| Devices.Device.StartRecording | src/vk/commands.cpp:268-298 | Check-out as the protocol step of StartTakes; the reset's release loop has nothing to do |
| Devices.Device.Retain | src/vk/commands.cpp:128-185 | Retention in a recording as the protocol step of RetainsOnce |
| Devices.Device.CreateView | src/vk/resources.cpp:544-588 | View creation as a protocol step |
| Devices.Device.FreeView | src/vk/resources.cpp:647-653 | View free as the protocol step of FreeViewDefers |
| Devices.Device.RetireSlot | src/vk/resources.cpp:253-292 | Slot retirement as a protocol step, owner included |
| Devices.Device.ProcessBatch | src/vk/commands.cpp:380-415 | A batch processed item by item; every reference it releases is live |
| Devices.Device.Drain | src/vk/device.cpp:2416-2446 | The drain as the protocol step of DrainTakes, DrainFrees and DrainMarks |
| Devices.Device.constructor | src/vk/device.cpp:2380-2384 | A new device is an initial state of the protocol |
| RetireQueues.RetireQueue.Prepare | src/vk/commands.cpp:321-361 | Finds or inserts the batch of a value with reserved room; without storage nothing changes |
| RetireQueues.RetireQueue.Enqueue | src/vk/commands.cpp:366-377 | One more item at a value, or nothing |
| RetireQueues.RetireQueue.TakeDue | src/vk/device.cpp:2437-2443 | Splits off the due prefix |
| RetireQueues.AvailableIs | src/vk/commands.cpp:321-361 | An item can be stored at a value if and only if its items can be reserved and the value has a batch or a new one can be had |
| RetireQueues.PreparedKeeps | src/vk/commands.cpp:321-361 | Preparing keeps order, every queued item and its value |
| RetireQueues.PushedKeeps | src/vk/commands.cpp:842-858 | Pushes within the reservation keep order and add their items at their value only |
| RetireQueues.DueBatches | src/vk/device.cpp:2437-2439 | In a sorted queue a batch is in the due prefix exactly when its value has completed |
| RetireQueues.DrainedKeeps | src/vk/device.cpp:2437-2443 | Draining splits the queued items into those due and those not, losing none |
| CommandPools.StartKeeps | src/vk/commands.cpp:199-266 | A check-out changes one pool and no retained reference |
| CommandPools.UpdateRetained | src/vk/commands.cpp:753-766 | Emptying the recordings of distinct pools takes away exactly what they retained |
| Descriptors.HandleRoundTrip | src/vk/resources.cpp:180-193 | A descriptor handle decodes to its slot and generation for its own type and to nothing for any other |
| Descriptors.HandleValues | src/vk/resources.cpp:187-193 | The values that decode to a pair are its handle with anything in the ignored top byte |
| Descriptors.OutstandingIs | src/vk/resources.cpp:223-247 | desc_free_accept accepts exactly the outstanding handle of an allocated slot |
| Descriptors.StaleHandle | src/vk/resources.cpp:223-247 | A handle from an earlier bump is accepted again if and only if the slot was bumped 2^16 times since and is allocated |
| Descriptors.FreedOnce | src/vk/resources.cpp:223-267 | A second free, and a second retirement, of the same allocation are rejected in every order |
| Descriptors.Region.Create | src/vk/resources.cpp:544-643 | Allocates the least free slot above 0; returns 0 exactly when there is none or the native write fails, and then takes no slot |
| Descriptors.Region.FreeAccept | src/vk/resources.cpp:223-247 | Accepts exactly outstanding handles, moving the slot to Retiring with a new generation |
| Descriptors.Region.RetireSlot | src/vk/resources.cpp:253-292 | Frees a retiring slot of the given generation with its bitset bit and hands out its owner; otherwise a no-op |
| Descriptors.Region.constructor | src/vk/device.cpp:956-972 | All slots free, slot 0 reserved in the bitset; for other slots the bit is set exactly when the slot is not free |
| Views.Views.CreateView | src/vk/resources.cpp:544-643 | Creating a view by handle is the protocol step on the least free slot; nothing happens exactly when the owner is stale or no slot is free |
| Views.Views.FreeView | src/vk/resources.cpp:223-250 | Freeing by handle is the protocol step for the slot and generation that the handle decodes to |
| Views.Views.Drain | src/vk/device.cpp:2416-2446 | A drain keeps region, bitset and protocol in step |
| Bitset.TwoLevelBitset.constructor | src/common/containers.cpp:47-65 | The empty set, with everything out of range marked |
| Bitset.TwoLevelBitset.SetLeadingZero | src/common/containers.cpp:67-87 | Adds and returns the least missing index below the size, or ~0 exactly when there is none; header bits stay exact; the scan terminates |
| Bitset.TwoLevelBitset.Take | src/common/containers.cpp:73-84 | Takes the lowest clear bit of a chunk and marks the chunk when it fills |
| Bitset.TwoLevelBitset.Clear | src/common/containers.cpp:89-97 | Removes an index; header bits stay exact |
| Bitset.TwoLevelBitset.IsSet | src/common/containers.cpp:99-103 | Membership |
| SlotMaps.AddressBijection | src/common/containers.h:708-712 | Indices and (segment, slot) places correspond one to one, places in range |
| SlotMaps.AddressOfPlace | src/common/containers.h:422-427 | Every place is the place of the index its segment offset gives |
| SlotMaps.GrowAt | src/common/containers.h:626-640 | A new segment moves no earlier entry |
| SlotMaps.HandleRoundTrip | src/common/containers.h:715-725 | A handle decodes to its index always, and to its generation exactly while that is below 2^31; null only for index and generation 0 |
| SlotMaps.HandleValues | src/common/containers.h:720-725 | Exactly two 64-bit values decode to a pair, differing in bit 63 |
| SlotMaps.SlotMap.Emplace | src/common/containers.h:567-587 | A new record in the first free slot with the next generation, other handles unaffected; the null handle exactly when no slot can be had, and a handle that resolves exactly while the generation is below 2^31 |
| SlotMaps.SlotMap.Erase | src/common/containers.h:590-605 | Destroys the record and puts the slot first in the free list exactly when the handle resolves |
| SlotMaps.SlotMap.Invalidate | src/common/containers.h:663-676 | The handle stops resolving; record and slot stay |
| SlotMaps.SlotMap.FindHandle | src/common/containers.h:643-660 | The current handle for the address of a slot in use, 0 for any other address |
| SlotMaps.SlotMap.TryGet | src/common/containers.h:684-704 | Resolves a handle by bounds, use and generation |
| SlotMaps.SlotMap.AddSegment | src/common/containers.h:626-640 | Links each new slot once into the free list; on failure nothing changes |
| SlotMaps.SlotMap.DestroyAll | src/common/containers.h:550-558 | Every stored record is destroyed once, in index order |
| SlotMaps.SlotMap.Clear | src/common/containers.h:548-564 | Nothing is left of segments, free list and generations |
| SlotMaps.StaleIs | src/common/containers.h:684-704 | A handle whose slot was bumped since resolves again exactly when the slot is in use and its generation, wrapped at 2^32, is what the handle decodes to, wrapped at 2^31 |
| SlotMaps.SlotMap.DeadNeverResolves | src/common/containers.h:590-605 | Between clears an erased or invalidated handle never resolves, without any condition on generations |
| SlotMaps.SlotMap.WornOut | src/common/containers.h:720-725 | A slot with a generation of 2^31 or more is resolved to by no handle, and its generation goes no further than 2^31 + 1 |
| SlotMaps.WearOut | src/common/containers.h:567-605 | A program that gets a slot there: after 2^30 records in turn the creation returns a handle that does not resolve |
| SlotMaps.DeadReturns | src/common/containers.h:700-704 | The comparison alone would let a stale handle resolve after 2^32 bumps |
| SlotMaps.SlotMap.OneHandlePerSlot | src/common/containers.h:715-725 | A live slot is resolved to by its one current handle (bit 63 ignored) while the generation is below 2^31, and by none beyond |
| SlotMaps.Grow | src/common/containers.h:626-640 | Growing an exhausted map keeps it well-formed, with the same records and resolutions |
| SlotMaps.PopChain | src/common/containers.h:575-580 | Taking the head keeps the rest of the free list, which no longer visits it |
| TextureHandles.Textures.Resolves | src/common/containers.h:684-704 | The 64-bit handle of a texture resolves, to that texture, exactly while the protocol counts it among the handles and its generation is below 2^31; freed handles stay dead whatever their slots are used for |
| TextureHandles.Textures.CreateTexture | src/vk/resources.cpp:389-403 | Creation is the protocol step, with a new non-null handle of its own |
| TextureHandles.Textures.FreeTexture | src/vk/resources.cpp:450-468 | free by handle is the protocol step: resolve, invalidate, release, and erase with the last reference; stale handles do nothing; at generation 2^31 - 1 the reference is lost for good |
| TextureHandles.Textures.FreeTextureAfter | src/vk/resources.cpp:472-490 | free_after by handle is the protocol step, for every handle that resolves when new |
| TextureHandles.Textures.RetainTexture | src/vk/commands.cpp:128-150 | Retaining by handle is the protocol step; a handle that does not resolve fails the recording |
| TextureHandles.Textures.Submit | src/vk/commands.cpp:419-865 | A submission by the device keeps slots and records in step |
| TextureHandles.Textures.Drain | src/vk/device.cpp:2416-2446 | So does a drain, which erases the slots of the textures it destroys |
| PipelineRuns.RunSafe | src/vk/pipeline.cpp:1033-1168 | Under every interleaving, races included: live records have distinct descriptions, counts are exact, each record is enqueued and given a result at most once, and nobody holds a destroyed one |
| PipelineRuns.SafeExactlyWhenQuiet | src/vk/pipeline.cpp:1092-1104 | A run lets no record be destroyed twice, now or by any further steps without a race, if and only if no last reference is dropped under a lookup between its count test and its increment |
| PipelineRuns.DestroyedTwice | src/vk/pipeline.cpp:1033-1046 | From a new device, for every description: a run of two threads after which a record has been destroyed twice |
| PipelineRuns.BothDestroy | src/vk/pipeline.cpp:1033-1078 | Wherever a tested record is at zero: the steps by which both releasing threads destroy it |
| PipelineRuns.RecheckSpares | src/vk/pipeline.cpp:1035-1046 | If the lookup goes first, the recheck sees its reference and leaves the record in the map |
| PipelineRuns.RaceIsExact | src/vk/pipeline.cpp:1034-1034 | From a state of a quiet run, a step keeps the quiet invariant if and only if it is not the race |
| PipelineRuns.QuietRunSafe | src/vk/pipeline.cpp:1033-1088 | A run without a race destroys each record at most once |
| PipelineRuns.RecheckSeesZero | src/vk/pipeline.cpp:1042-1046 | In a run without a race the locked recheck sees a count of zero and the record in the map |
| PipelineRuns.ZeroIsFinal | src/vk/pipeline.cpp:1092-1104 | A count of zero stays zero under every possible next step if and only if no lookup has tested the record before |
| PipelineRuns.CarefulRunSafe | src/vk/pipeline.cpp:1134-1168 | Callers who keep a reference to an equal pipeline from before a request until after it see every record destroyed at most once |
| PipelineRuns.CarefulIsQuiet | src/vk/pipeline.cpp:1092-1104 | Their runs are free of the race, whatever the worker and the other threads do |
| PipelineRuns.NothingDangles | src/vk/pipeline.cpp:829-870 | Holders, jobs, the worker and lookups never name a record that is gone; in runs without a race, releasing threads do not either |
| PipelineRuns.RunInv | src/vk/pipeline.cpp:1033-1168 | Every run keeps the invariant, and every run without a race the stronger one |
| PipelineDedup.StepInv | src/vk/pipeline.cpp:1033-1168 | Every atomic action of requests, releases and the worker keeps the invariant of all runs, and, unless it is the race, that of quiet ones |
| PipelineRuns.StagesAdvance | src/vk/pipeline.cpp:773-827 | Compile stages only move forward; a terminal stage and its single result stay, whichever it is |
| PipelineRuns.OutcomeIs | src/vk/pipeline.cpp:773-827 | After every run from a new device a record is ready if and only if the worker published a success for it, once, and failed if and only if it published a failure, once; never both |
| PipelineRuns.ProbesExactly | src/vk/pipeline.cpp:780-806 | A record passes the probing stage if and only if its job was begun with the cache probe, and a job is begun at most once |
| PipelineRuns.PassesExactly | src/vk/pipeline.cpp:785-822 | From any state, a record passes the probing stage or an outcome if and only if it is in it or the run has the worker's action that brings it there |
| PipelineRuns.TakenInOrder | src/vk/pipeline.cpp:845-853 | Over every run jobs are taken in the order in which they were queued, and none is lost |
| PipelineDedup.MatchesSelf | src/vk/pipeline.cpp:92-157 | A request matches its own stored key exactly when its entry points contain no NUL |
| PipelineDedup.MatchesExactly | src/vk/pipeline.cpp:92-172 | A stored key answers a request if and only if every member agrees, entry points compared as C strings; for NUL-free descriptions that is equality |
| PipelineRuns.NulNeverHits | src/vk/pipeline.cpp:92-95 | A request with a NUL in an entry point passes over every record |
| PipelineRuns.NulDuplicates | src/vk/pipeline.cpp:1134-1168 | Hence requesting it again makes a second record with the same description |
| PipelineRuns.NulTwice | src/vk/pipeline.cpp:1134-1168 | The run that shows it, from a new device: two live records of one description |
| PipelineCompiler.Compiler.FindRecordLocked | src/vk/pipeline.cpp:1092-1104 | With any steps of other threads before each round: at a miss no live record answers the key, at a hit the increment will be for a matching record of the map |
| PipelineCompiler.Compiler.ScanStep | src/vk/pipeline.cpp:1094-1098 | One round: the count is read, then the key compared |
| PipelineCompiler.Compiler.EndHit | src/vk/pipeline.cpp:1098-1101 | Whatever other threads do to the count first, the increment yields a held reference to a live record of the description |
| PipelineCompiler.Compiler.LookupFirst | src/vk/pipeline.cpp:1134-1141 | The first locked region under interference: a held reference to a live equal record, or a true miss |
| PipelineCompiler.Compiler.InsertChecked | src/vk/pipeline.cpp:1152-1164 | The second locked region under interference: a held reference to an equal record that came meanwhile, or a new record with two references, the only one of its description |
| PipelineCompiler.Compiler.RemoveLocked | src/vk/pipeline.cpp:1048-1054 | Removal by moving the last record into the gap |
| PipelineCompiler.Compiler.RecheckLocked | src/vk/pipeline.cpp:1042-1078 | The locked recheck of the final release |
| PipelineCompiler.Compiler.TakeJob | src/vk/pipeline.cpp:845-853 | The worker takes the oldest job |
| StaticVariants.RoutesAgreeExactly | src/vk/commands.cpp:1525-1565 | For every stream, compute pipelines included: a recorded draw uses the pipeline and state of the dynamic route if and only if a graphics pipeline was bound last and the depth-stencil state is covered, or a compute one was and the state is the default, no variant is left and no draw has strayed |
| StaticVariants.RoutesAgree | src/vk/commands.cpp:1525-1565 | For every stream of graphics pipelines, a recorded draw uses the bound pipeline, and its baked state is the dynamic route's if and only if the pass set a depth-stencil state or none that matters is left over |
| StaticVariants.LeftoverState | src/vk/commands.cpp:1912-1934 | A pass that draws without setting its own state gets the previous pass's state on the static route |
| StaticVariants.ComputeConfuses | src/vk/commands.cpp:1506-1508 | A stream from a fresh buffer after which a default-state draw binds the compute pipeline for graphics |
| StaticVariants.DrawResolves | src/vk/commands.cpp:1525-1565 | A recorded draw uses the tracked base with the shadow's baked state, as if resolved eagerly; only a default state with no variant tracked leaves what is bound |
| StaticVariants.AfterTracks | src/vk/commands.cpp:1567-1672 | What both routes' states, pipelines and variants are after any stream: face, cull mode and depth-stencil members are the last ones set, member by member, stencil testing on if and only if some stencil member differs from its default |
| StaticVariants.DrawBakes | src/vk/commands.cpp:1525-1565 | What a recorded draw bakes, from the commands before it alone: the last front face, cull mode and depth-stencil description, member by member |
| StaticVariants.BothAsk | src/vk/pipeline.cpp:1300-1319 | The shadow's update and the dynamic-state commands both set each member that the description asks for, front and back faces each their own |
| StaticVariants.KeyRoundTrip | src/vk/pipeline.cpp:875-919 | The worker rebuilds exactly the state a key was made from, with its base and profile |
| StaticVariants.KeysDiffer | src/vk/pipeline.cpp:922-933 | Keys are equal exactly for the same profile, base and state |
| StaticVariants.SerializedInjective | src/vk/pipeline.cpp:937-958 | Different keys serialize differently |
| StaticVariants.SerializedFields | src/vk/pipeline.cpp:937-958 | Magic, version, profile and base read back as little-endian numbers, and each of the fifteen bytes is its member's |
| StaticVariants.InertIs | src/vk/pipeline.cpp:1300-1333 | A description bakes the default depth-stencil state exactly when its baked members are the defaults |
| StaticVariants.VariantMap.FindOrRequest | src/vk/pipeline.cpp:993-1028 | Returns the variant of a base and state, adding it when absent; fails exactly when absent and allocation fails |
| StaticVariants.CommandBuffer.PrepareStaticGraphics | src/vk/commands.cpp:1525-1565 | The draw-time resolution, with its failure flag |
| StaticVariants.CommandBuffer.BindPipeline | src/vk/commands.cpp:1505-1508 | Tracks graphics and compute pipelines alike as the base |
| StaticVariants.CommandBuffer.SetDepthStencilState | src/vk/commands.cpp:1567-1582 | Sets each baked member of the shadow from the description, leaves the bounds test and the rest, and marks it dirty |
| StaticVariants.CommandBuffer.BeginRenderPass | src/vk/commands.cpp:1918-1935 | Resets front face and cull mode only |
| Zlib.Compress | examples/common/stb_image_write.h:895-1021 | Inflating the output returns the input if and only if the input is non-empty; the output is the fixed-Huffman stream or, when that is longer, the stored one, and at most 2 + n + 5*ceil(n/32767) + 4 bytes |
| Zlib.EmptyStreamRejected | examples/common/stb_image_write.h:985-999 | The stored fallback writes no block for empty input, which no decoder accepts |
| Zlib.CompressStep | examples/common/stb_image_write.h:922-971 | One round of the main loop: the last longest match of the chain unless the next byte has a longer one, else a literal; the chain is trimmed and extended |
| Zlib.CompressBody | examples/common/stb_image_write.h:921-974 | The body decodes to the data |
| Zlib.CompressStored | examples/common/stb_image_write.h:984-999 | Stored blocks of at most 32767 bytes, within the bytes already allocated |
| Zlib.StoredDecodes | examples/common/stb_image_write.h:987-998 | Stored blocks decode to the data |
| Zlib.AnyWindow | examples/common/stb_image_write.h:913-914 | The stream is accepted by every reader whose window the header announces |
| Zlib.LazyCheck | examples/common/stb_image_write.h:941-955 | True exactly when some candidate for the next byte is longer |
| Zlib.VisitChain | examples/common/stb_image_write.h:924-939 | The best candidate of a chain, which loses its older half when full |
| Deflate.BestMatch | examples/common/stb_image_write.h:926-933 | The last longest candidate of at least three bytes within 32767 |
| Deflate.CountMatch | examples/common/stb_image_write.h:859-865 | The common length, up to 258 |
| Deflate.EmitMatch | examples/common/stb_image_write.h:957-966 | Length 3..258 and distance 1..32767 are coded so that a reader copies the match back |
| Deflate.SymbolRoundTrip | examples/common/stb_image_write.h:883-889 | Each of the 288 symbols is read back from its fixed code, whatever follows |
| Deflate.LengthTable | examples/common/stb_image_write.h:901-902 | The length classes are the writer's table |
| Deflate.LengthTableHigh | examples/common/stb_image_write.h:901-902 | Likewise for the longer half |
| Deflate.DistTable | examples/common/stb_image_write.h:903-904 | The distance classes are the writer's table |
| Deflate.DistTableHigh | examples/common/stb_image_write.h:903-904 | Likewise for the longer half |
| Deflate.LengthIndex | examples/common/stb_image_write.h:960-962 | The class of a length |
| Deflate.DistIndex | examples/common/stb_image_write.h:963-965 | The class of a distance |
| Deflate.CopyBackRepeats | examples/common/stb_image_write.h:957-966 | An overlapping copy reproduces the repeated bytes |
| Deflate.DecodesCompose | examples/common/stb_image_write.h:921-974 | Codes written one after another decode one after another |
| Bits.BitRev | examples/common/stb_image_write.h:849-857 | Reversal turns least-significant-first bits into most-significant-first |
| Bits.BitWriter.Add | examples/common/stb_image_write.h:879-881 | Appends exactly the given bits to the stream |
| Bits.BitWriter.AddCode | examples/common/stb_image_write.h:882-882 | Appends a code most significant bit first |
| Bits.BitWriter.Flush | examples/common/stb_image_write.h:839-847 | Moves whole bytes out without changing the stream |
| Bits.BitWriter.Pad | examples/common/stb_image_write.h:976-978 | Pads to a byte with zero bits |
| Adler.ComputeAdler | examples/common/stb_image_write.h:1001-1011 | The checksum with deferred reduction |
| Adler.SumsClosed | examples/common/stb_image_write.h:1001-1011 | The sums are 1 plus the bytes, and their number plus the bytes weighted by position from the end, modulo 65521 |
| Adler.ChunkLimit | examples/common/stb_image_write.h:1004-1010 | 32-bit sums cannot wrap in a chunk of k bytes if and only if k <= 5552 |
| Inflate.BlocksWindow | examples/common/stb_image_write.h:913-914 | Decoding does not depend on a larger window |
| Png.EncodeIdat | examples/common/stb_image_write.h:1146-1176 | The IDAT payload inflates and unfilters to the rows of the picture |
| Png.FilterPicture | examples/common/stb_image_write.h:1146-1175 | The forced filter on every line, or the first of the cheapest; the lines unfilter to the picture |
| Png.ChooseFilter | examples/common/stb_image_write.h:1153-1170 | The first filter with the least estimate |
| Png.EncodeLine | examples/common/stb_image_write.h:1092-1126 | The filtered bytes of a line, first-row remapping, stride and flip included |
| Png.UnfilterFilter | examples/common/stb_image_write.h:1092-1126 | Unfiltering undoes each filter |
| Png.Paeth | examples/common/stb_image_write.h:1083-1090 | The argument nearest to a + b - c, the earlier of left, above and upper left on ties |
| Png.StepUp | examples/common/stb_image_write.h:1095-1099 | The signed stride leads to the previous scanline, flipped or not |
| Png.CodedLinesDecode | examples/common/stb_image_write.h:1146-1175 | The coded lines decode to the picture's lines |
| Png.EstimateLine | examples/common/stb_image_write.h:1157-1160 | The sum of signed magnitudes |
| Rle.TgaEncode | examples/common/stb_image_write.h:559-605 | Expanding the packets returns the row |
| Rle.TgaScan | examples/common/stb_image_write.h:563-592 | Packets of 1..128 pixels; a run is maximal, a raw packet stops before a pixel equal to the one two before it |
| Rle.TgaPacket | examples/common/stb_image_write.h:594-604 | A packet stands for its pixels |
| Rle.HdrEncode | examples/common/stb_image_write.h:721-757 | Expanding the codes returns the component plane |
| Rle.FirstRun | examples/common/stb_image_write.h:727-735 | The first position of three equal bytes, or the end |
| Rle.DumpTo | examples/common/stb_image_write.h:736-742 | Dumps of at most 128 bytes up to the run |
| Rle.RunTo | examples/common/stb_image_write.h:743-756 | Runs of at most 127 bytes |
| PointerMap.PlaceIs | src/vk/device.cpp:1956-2062 | malloc's arithmetic succeeds exactly for a power-of-two alignment up to 2^24, a non-zero size and no 64-bit wrap; the user range is aligned and inside the backing range, and the last check never fails |
| PointerMap.PowerTest | src/vk/device.cpp:1962-1966 | The bit test accepts exactly powers of two |
| PointerMap.AlignUpIs | src/vk/device.cpp:2054-2056 | The least aligned address at or above the backing address |
| PointerMap.AddressMap.Malloc | src/vk/device.cpp:2085-2097 | Inserts one allocation in order |
| PointerMap.AddressMap.Remove | src/vk/device.cpp:2111-2157 | Removes the allocation at exactly this address; otherwise nothing |
| PointerMap.AddressMap.FindRange | src/vk/device.cpp:198-232 | Succeeds exactly when a live allocation contains the range; the offset plus size fits its backing buffer |
| PointerMap.InsertSorted | src/vk/device.cpp:2085-2094 | Disjoint backing ranges keep the map sorted and user ranges apart |
| PointerMap.OneHolder | src/vk/device.cpp:198-232 | At most one live allocation holds an address |
| CopyBytes.CopySizeIs | src/vk/commands.cpp:1204-1226 | Succeeds exactly for non-zero extents, a known format and a product that fits 64 bits, and returns that product of planes, rows, least covering blocks of a row, and bytes |
| CopyBytes.TakesIs | src/vk/commands.cpp:1212-1221 | The row's blocks are the least number that covers the row stride, or else the width; the plane's rows are the plane stride, or else the least number of blocks that covers the height |
| CopyBytes.SizeCovers | src/vk/commands.cpp:1204-1226 | For legal strides the size bounds every byte Vulkan addresses, block-compressed formats included |
| CopyBytes.PlaneStrideInTexels | src/vk/commands.cpp:1218-1221 | A plane stride is counted in block rows though Vulkan means texel rows: an over-estimate |
| Pacing.WaitIsExact | src/vk/surface.cpp:356-374 | Waiting for the computed value is exactly what keeps unfinished frames within the latency |
| Pacing.Latency | src/vk/surface.cpp:93-271 | Requests outside 1 to 4 are refused; otherwise the smaller of the request and the image count is installed |
| Pacing.AcquireSlotFree | src/vk/surface.cpp:376-377 | An acquire slot's previous frame has finished |
| Pacing.OverlapApart | examples/common/gpu_args.h:25-37 | Overlapping ring ranges of different frames are at least four frames apart |
| Pacing.FrameLoop.GetCurrentTexture | src/vk/surface.cpp:348-402 | After acquiring, at most latency frames are unfinished and the slot is free |
| Pacing.FrameLoop.Append | examples/common/gpu_args.h:25-37 | Appends within the slice or fails; no range an unfinished frame can read is overwritten |
| Pacing.FrameLoop.Present | src/vk/surface.cpp:405-428 | Advances the frame |
| Pacing.FrameLoop.BeginArgs | examples/common/gpu_args.cpp:22-25 | Restarts the slice of the frame |
| Pacing.FrameLoop.constructor | src/vk/surface.cpp:271-271 | The installed latency is the smaller of the request and the image count, between 1 and 4 |

## Left out

- Vulkan, VMA and volk calls, device selection, swapchain creation, logging and statistics counters: foreign calls.
- Swapchain image records and surface reconfiguration: their records are erased without their reference count.
- Several queues, foreign or forged submission tokens, submitting a buffer twice, recording after submission: application errors or other protocols.
- Races inside one API call and weak memory ordering: calls are atomic steps. Only the pipeline map is modelled more finely: its lock is state, and every test of a count, increment and decrement is a step of its own.
- Allocation failure other than of retirement storage, slot-map segments, variants and native objects.
- Completion callbacks: a second queue drained like the first, with no resources behind it.
- Attachment views, debug names, GPU timers and depth-stencil state objects: no protocol of their own.
- JPEG and BMP writing, RGBE conversion, PNG chunk framing with its CRC, TGA and HDR headers: floating point or straight-line output.
- Capability evaluation, enum bridging and the format table: lookups.
- Zlib.Compress: sizes and quality are unbounded integers; an input, or twice the quality, beyond 2^31 is not modelled.
- Rle.TgaEncode: pixels are byte strings as written; the channel reordering and alpha compositing of the pixel writer are not modelled.
- Rle.HdrEncode: takes a component plane; the scanline header and the uncompressed form for widths outside 8..32767 are not modelled.
- Png.EncodeIdat: the payload of the IDAT chunk, not the file around it.
- Bitset.TwoLevelBitset.Take: words are sequences of booleans; the source's masks and its count of trailing zeros on 64-bit words are not modelled.
- LifetimeEffects.RetainsNothing: the null pointer, for which a command retains nothing and which does not fail the recording by itself, is not a handle of the model.
- TextureHandles.Textures.Resolves: textures only; buffers are found by address (PointerMap) and pipeline handles are slots of their own kind.
- TextureHandles.Textures.Submit: as for the drain, the slots of the textures that the call destroys are erased at its end, and every generation is taken to be three or more below 2^31.
- TextureHandles.Textures.CreateTexture: needs a free slot or a new segment; where there is none, the source goes on to use the record of the null handle.
- Descriptors.Region.Create: one region; the lifetime protocol has one table of slots where the source has three regions of the same kind.
- SlotMaps.SlotMap.Emplace: growing needs fewer than 26 segments, which the source assumes without a check.
- SlotMaps.SlotMap.FindHandle: an address is given by the segment and slot it points at.
- Devices.Device.CreateView: takes the slot as an input; Views.Views.CreateView supplies the one that the region serves.
- Views.Views.Drain: the region's slots are settled at the end of the call, where the source settles each with its retirement.
- Devices.Device.Commit: marks all textures and then queues them, where the source does both texture by texture.
- Devices.Device.DropBuffers: on a rollback it also empties the internal buffer's recording, which is empty already.
- PipelineRuns.RunSafe: base pipelines only; the jobs of private variants appear in the lifetime protocol as references to their base. A thread that would recheck a freed record takes no further step. Copying a debug name under the lock is not modelled.
- PipelineRuns.CarefulRunSafe: the discipline is sufficient; the exact condition is in PipelineRuns.SafeExactlyWhenQuiet.
- PipelineDedup.MatchesSelf: raster state is compared as one list of fields, in the order of the description.
- StaticVariants.RoutesAgree: covers the baked members; viewport, scissor, depth bias, stencil references and masks are set the same way on both routes.
- PointerMap.AddressMap.Malloc: assumes that the driver keeps live backing ranges apart and inside 64 bits.
- Pacing.FrameLoop.Append: assumes that slice capacity plus alignment stays below 2^64, and does not model the copied bytes.
- Pacing.FrameLoop.GetCurrentTexture: every frame is acquired, submitted with its signal and presented, and the ring is advanced once per frame; waiting is a precondition on the counter.
- Inflate.BlocksWindow: the decoder knows stored and fixed-Huffman blocks; dynamic ones are rejected, as the encoder never writes them.

# RPMsg-Lite: verification project

A Dafny model of the core of RPMsg-Lite, a message channel between two cores over shared memory, and
proofs of what that core is for. `dafny verify dfyconfig.toml` checks all of it.

## The system

Each direction of a link is a vring (the split layout of section 2.6 of VirtIO 1.1): a descriptor
table, an avail ring written by the master, a used ring written by the remote. Indexes are
free-running 16-bit numbers masked by the ring size. No writer tests whether a ring is full; both cores
run at any time; the doorbell that wakes the receiver is one bit. The claims are therefore about every
interleaving of single accesses to shared memory.

## How the files build on each other

| file | what it models |
|---|---|
| Words | 16- and 32-bit words, `&` bit by bit, powers of two, masks, alignment |
| VringLayout | `vring_size`, `vring_init`, the VRING_SIZE macros |
| Lanes | one ring, one writer, one reader, one access at a time; the ring invariant |
| Calls | whole calls on a ring, interleaved with any steps of the peer |
| Virtqueue | `virtqueue.c` on arrays and 16-bit fields, statement by statement a run of lane steps |
| Channels, ChannelSteps | a data ring and a free ring with buffers, headers and the two cores' holdings; every step keeps the channel invariant |
| Ownership, Publication | what a core can rely on while the other one moves; over runs, that what goes out is what the sender wrote |
| System, SystemProof | both channels, init, doorbells and interrupt handlers as one state machine; the invariant over all runs |
| LinkTheorems | what holds in every reachable state |
| Progress, Startup | that everything sent arrives, that init completes and the link comes up |
| Doorbell | the interrupt handler on its two flags |
| Pool, MasterInit | how init divides the shared memory, and the init loop in place |
| ColdStart | from which contents of the memory the link works |
| Endpoints | the linked list of endpoints and address allocation |
| Outcomes | what the receive callback does with each message, from the endpoint table alone |
| ChannelCalls, Sending, Polling, Device | the operations of an instance, the receive callback, sending, time-outs, the blocking queue |

Three levels meet in the lanes. The methods of Virtqueue change arrays and, with each access, a ghost
lane; between any two accesses they let the peer run, of which they know only that it made steps of its
own (`PeerReads` and `PeerWrites` have bodies that do nothing, because callers see their contracts only;
`Sleep` and `PeerRings` let it run in the same way on the free ring and the doorbell). The link's state machine
moves the same lanes one step at a time and proves that a writer always has the credit that those methods
require. The operations in ChannelCalls are proved to be whole calls on a lane with the peer moving between
the accesses (`PeerMoves` and `SenderMoves`, of the same kind).

## Assumptions

- Calls that write the same ring do not overlap on one core, nor do two reads of one ring. With
  RL_USE_ENVIRONMENT_CONTEXT set the receive callback takes the instance's lock
  (`lib/rpmsg_lite/rpmsg_lite.c:183-185`); in the other ports it does not, and FreeRTOS's
  `env_lock_mutex` does nothing inside an interrupt, so there it is a requirement on the caller.
- Accesses take effect in program order (the barriers and the non-cached configuration).
- Each side initialises once, and nothing but `virtqueue_kick` rings a doorbell. Shared memory may hold
  anything before, but where init does not clear the header of a used ring that header is zero
  (`System.Clean`); ColdStart says when this is no restriction.
- The application leaves the header of a buffer alone and gives back only what it holds.

## Where the code does less than its surroundings suggest

- `hdr.len` has 16 bits: a payload of 2^16 bytes or more is cut, although the size check lets it pass
  when RL_BUFFER_PAYLOAD_SIZE allows it (`LinkTheorems.CopiedMessage`).
- The range check of `virtqueue_add_consumed_buffer` lets the ring size itself pass
  (`Virtqueues.Virtqueue.AddConsumedBuffer`); no reachable call has an index that large
  (`LinkTheorems.WrittenIndexInRange`).
- `vring_init` rounds up the address of the used-event slot, not of its end: with an alignment below 16
  the used ring can lie on that slot (`VringLayout.UsedEventIsClear`, `VringLayout.UsedEventCanClash`). The
  slot is not used here.
- Init aligns the vrings to words only. A base that is not aligned to VRING_ALIGN can push the used ring
  past `vring_size` bytes (`VringLayout.WordAlignedBaseIsNotEnough`), though never past VRING_SIZE
  (`VringLayout.MacroCoversLayout`). Only `vring_size` bytes are cleared, so even its flags and index can
  keep what was in memory (`VringLayout.HeaderReachedExactlyWhen`): then the pool is offered from a wrong
  index, or the remote is not rung (`MasterInit.Init`, `ColdStart.AnyMemoryOnRegion`).
- A region that is not word aligned can be overrun by the last buffer (`Pool.OverrunsExactlyWhen`,
  `Pool.UnalignedRegionOverruns`).
- The count of waited milliseconds has 32 bits; with an interval above one it can wrap before a time-out
  near 2^32 (`Polling.AttemptBound`). Whether a call on a ring that stays empty then ends at all is decided
  by the largest power of two in the interval (`Polling.EndsExactlyWhen`).

## Model

| member | source | states |
|---|---|---|
| Words.Pow2Test | lib/rpmsg_lite/rpmsg_lite.c:88-90 | the build-time test `n & (n - 1)` is zero exactly on powers of two |
| Words.MaskedCounter | lib/virtio/virtqueue.c:733 | for every ring size, masking the 16-bit index gives the unbounded count modulo the ring size |
| Words.WrappedEqual | lib/virtio/virtqueue.c:289 | 16-bit images of counts less than 2^16 apart are equal only if the counts are |
| Words.AlignUpIsLeast | lib/include/rpmsg_lite.h:61 | `(x + a - 1) & ~(a - 1)` is the least multiple of a power of two that is not below x |
| Words.AlignDownIsGreatest | lib/include/rpmsg_lite.h:63 | `x & ~(a - 1)` is the greatest multiple that is not above x |
| VringLayout.VringSizeIsPositive | lib/include/virtio_ring.h:131-141 | for every ring size up to 32768 and alignment up to 65536 nothing wraps, the result is a positive int32, and it is the sum of the parts plus less than one alignment |
| VringLayout.VringRecord.Init | lib/include/virtio_ring.h:143-149 | the four fields are filled, each from the one before, to the layout that the lemmas below are about |
| VringLayout.UsedEventIsClear | lib/include/virtio_ring.h:128-149 | the used ring is clear of the used-event slot exactly when 18 n + 4 is not a multiple of the alignment |
| VringLayout.UsedEventCanClash | lib/include/virtio_ring.h:143-149 | two entries at alignment 8: the used ring begins at the used-event slot |
| VringLayout.NoClashFrom16 | lib/include/platform/imxrt1170/rpmsg_platform.h:17-19 | no ring size makes that a multiple of 16 or more |
| VringLayout.LayoutIsSound | lib/include/virtio_ring.h:98-149 | with an aligned base and alignment from 16, for a vring that ends below 2^32, the five parts lie one behind the other and end within `vring_size` |
| VringLayout.LayoutFitsExactlyWhen | lib/include/virtio_ring.h:131-149 | on any base the used ring ends within `vring_size` exactly when the padding before it is at most 10 bytes above what `vring_size` counted |
| VringLayout.WordAlignedBaseIsNotEnough | lib/rpmsg_lite/rpmsg_lite.c:1204-1210 | the word alignment that init gives the vrings does not ensure this: a base and alignment where the used ring ends outside |
| VringLayout.HeaderReachedExactlyWhen | lib/rpmsg_lite/rpmsg_lite.c:1204-1210 | the memset of `vring_size` bytes clears the index of the used ring, and then its flags too, exactly when the padding before that ring is at most 8 n + 14 bytes above what `vring_size` counted |
| VringLayout.HeaderReachedWhen | lib/rpmsg_lite/rpmsg_lite.c:1204-1210 | it always does up to an alignment of 16, and on a base aligned to VRING_ALIGN |
| VringLayout.HeaderByHalves | lib/rpmsg_lite/rpmsg_lite.c:1204-1210 | where it does not, no byte of the index is cleared, and the flags are as a whole or not at all |
| VringLayout.HeaderNotReached | lib/rpmsg_lite/rpmsg_lite.c:1204-1210 | a word-aligned base and an alignment where neither is |
| VringLayout.MacroCoversVringSize | lib/include/platform/imxrt1170/rpmsg_platform.h:22-32 | VRING_SIZE is a multiple of the alignment and never below `vring_size`, for every ring size and alignment |
| VringLayout.MacroCoversLayout | lib/include/platform/imxrt1170/rpmsg_platform.h:22-32 | on every word-aligned base, whatever the alignment, the used ring and the slot behind it end within VRING_SIZE: what lies past `vring_size` is not cleared, but is never part of the next vring |
| VringLayout.TwoVringsFit | lib/rpmsg_lite/rpmsg_lite.c:1204-1210 | so on the word-aligned base that init gives them both vrings of a link lie inside their own part of the overhead, and no clearing leaves that part |
| Lanes.EqualMeansEmpty | lib/virtio/virtqueue.c:289-292 | index and cursor are equal exactly when nothing is pending, however long the run |
| Lanes.LoadSeesOldest | lib/virtio/virtqueue.c:301-312 | the slot that a reader is about to load, also with its cursor already moved on, holds the oldest pending entry |
| Lanes.StoreHitsNoPending | lib/virtio/virtqueue.c:733-748 | the slot that a writer is about to store to holds no pending entry |
| Lanes.MaskedIsAt | lib/virtio/virtqueue.c:733-734 | the slot computed from the 16-bit index is the one of the unbounded count |
| Lanes.WriteKeeps | lib/virtio/virtqueue.c:720-783 | each access of a writer keeps the ring invariant, given the credit that it brings instead of a test for a full ring |
| Lanes.ReadKeeps | lib/virtio/virtqueue.c:281-325 | each access of a reader keeps the ring invariant |
| Lanes.PendingAfterWrite | lib/virtio/virtqueue.c:741 | only the index increment of a writer changes what is pending: it appends its entry |
| Lanes.PendingAfterRead | lib/virtio/virtqueue.c:325 | only the end of a read does: it removes the oldest entry, and that is the one it has loaded |
| Calls.RunKeeps | lib/virtio/virtqueue.c:720-783 | any interleaving of the two cores' accesses to a ring keeps its invariant |
| Calls.WholeWrite | lib/virtio/virtqueue.c:720-783 | whatever the reader does between its accesses, a whole write publishes its entry once and as the next |
| Calls.WholeRead | lib/virtio/virtqueue.c:281-434 | whatever the writer does between its accesses, a read that passes its check takes one entry |
| Calls.OwnStepsDecide | lib/virtio/virtqueue.c:281-457 | with the peer quiet a call's accesses determine the state it ends in |
| Calls.QuietCallsAgree | lib/virtio/virtqueue.c:281-457 | so the calls on arrays and the calls on channels below end in the same ring state |
| Virtqueues.Virtqueue.UpdateAvail | lib/virtio/virtqueue.c:720-748 | the statements are, in order, the steps of an avail write, with the reading peer running between any two; the arrays stay an image of the lane |
| Virtqueues.Virtqueue.UpdateUsed | lib/virtio/virtqueue.c:755-783 | the same for the used ring, whose entry is stored in two parts; also on a ring that was not cleared one slot and the index change, and nothing else |
| Virtqueues.Virtqueue.AddBuffer | lib/virtio/virtqueue.c:191-219 | publishes the index as the next entry and reports success |
| Virtqueues.Virtqueue.AddConsumedBuffer | lib/virtio/virtqueue.c:445-457 | fails exactly on an index above the ring size (the size itself passes) and then writes nothing; otherwise publishes index and length as the next entry |
| Virtqueues.Virtqueue.GetBuffer | lib/virtio/virtqueue.c:281-334 | while the writing peer runs: null exactly when nothing was pending at the check; otherwise id, length and address of the oldest entry, which alone is taken; the cursor follows |
| Virtqueues.Virtqueue.GetAvailableBuffer | lib/virtio/virtqueue.c:401-434 | the same for the avail ring, the cursor incremented before the load and the length taken from the descriptor |
| Virtqueues.Virtqueue.FillAvailBuffers | lib/virtio/virtqueue.c:230-271 | enters one descriptor, changes no other, advances the head and publishes its index |
| Virtqueues.Virtqueue.RingAddBuffer | lib/virtio/virtqueue.c:657-693 | a null buffer changes nothing; any other fills one descriptor and gives the next index |
| Virtqueues.Virtqueue.FillUsedBuffers | lib/virtio/virtqueue.c:468-488 | the same for the used ring, from whatever index it has; on a null buffer the index is published all the same |
| Virtqueues.Virtqueue.DisableCb | lib/virtio/virtqueue.c:516-544 | sets the lowest flag of the avail ring and no other |
| Virtqueues.Virtqueue.Kick | lib/virtio/virtqueue.c:551-570 | notifies exactly when the lowest flag of the used ring is clear, and resets the pending count; what the notified peer finds published is on record |
| Channels.HolderHasCredit | lib/rpmsg_lite/rpmsg_lite.c:274-278 | a core that holds a descriptor finds fewer than n entries pending on either ring, so writing cannot overrun |
| Channels.HeldIsNotPending | lib/rpmsg_lite/rpmsg_lite.c:199-209 | the index a core holds is on no ring |
| ChannelSteps.StepKeeps | lib/rpmsg_lite/rpmsg_lite.c:168-459 | every step of either core keeps descriptor conservation, descriptor table, lengths, header indexes and the FIFO relation |
| ChannelSteps.SendNoCopyKeeps | lib/rpmsg_lite/rpmsg_lite.c:905-916 | publishing the index found in the header gives away exactly the descriptor of that buffer |
| ChannelSteps.ReleaseKeeps | lib/rpmsg_lite/rpmsg_lite.c:961-965 | returning the index found in the header gives back exactly the descriptor of that buffer |
| ChannelSteps.TakenLenIsBufferSize | lib/virtio/virtqueue.c:429 | the length reported with any taken entry is RL_BUFFER_SIZE, on either kind of ring |
| ChannelSteps.SeedKeeps | lib/virtio/virtqueue.c:230-271 | setting up one more descriptor keeps the invariant |
| Ownership.ConsumerSparesProducer | lib/rpmsg_lite/rpmsg_lite.c:313-347 | no step of the consumer changes the producer's state or any buffer that the producer or its application holds (over runs: Publication.OwnedBufferStays) |
| Ownership.ProducerSparesConsumer | lib/rpmsg_lite/rpmsg_lite.c:266-302 | no step of the producer changes the consumer's state or any buffer that the consumer or its application holds (over runs: Publication.ReceivedMessageStays) |
| Ownership.WrittenBufferSpared | lib/rpmsg_lite/rpmsg_lite.c:266-279 | no step of either core touches the buffer whose entry is being written to the data ring |
| SystemProof.EventKeeps | lib/rpmsg_lite/rpmsg_lite.c:1376-1380 | every event of the link, in any order, keeps the invariant of both channels, both cores and the doorbells |
| SystemProof.ReachableInv | lib/rpmsg_lite/rpmsg_lite.c:168-242 | the invariant holds in every state of every run that starts from any contents of the shared memory, except that what the memset does not reach of a used ring's flags and index is zero |
| ColdStart.AnyMemoryExactlyWhen | lib/rpmsg_lite/rpmsg_lite.c:1196-1210 | without that exception, from any contents at all, if and only if the memset reaches both headers |
| ColdStart.StaleHeader | lib/rpmsg_lite/rpmsg_lite.c:1196-1210 | otherwise there are contents with which, once the vrings have been cleared, a core takes for published what nobody has published, or does not ring the other |
| ColdStart.AnyMemoryOnRegion | lib/rpmsg_lite/rpmsg_lite.c:1196-1210 | the same in terms of the region: any contents will do exactly when the paddings of both vrings, where init places them, are in reach |
| SystemProof.NothingMovesEarly | lib/rpmsg_lite/rpmsg_lite.c:704-707 | before the master is ready no call of either side gets to a ring |
| SystemProof.DrainEndKeeps | lib/rpmsg_lite/rpmsg_lite.c:187-213 | the drain loop ends on a ring that is truly empty |
| SystemProof.TxCallbackKeeps | lib/rpmsg_lite/rpmsg_lite.c:235-242 | the remote's link comes up only after the master has finished |
| LinkTheorems.RingAccesses | lib/virtio/virtqueue.c:720-783 | in every reachable state, on all four rings: what is about to be loaded is the oldest pending entry, what is about to be stored hits none, indexes decide emptiness, masked indexes are the counts modulo n |
| LinkTheorems.Conservation | lib/rpmsg_lite/rpmsg_lite.c:266-458 | in every reachable state each descriptor index set up so far is in exactly one place: pending, being written, or held by one core or its application; once the master is ready these are 0..n-1 |
| LinkTheorems.WrittenIndexInRange | lib/virtio/virtqueue.c:445-450 | every index being written is below n, so the range check never decides anything and the success asserts hold |
| LinkTheorems.ReportedLength | lib/rpmsg_lite/rpmsg_lite.c:843-856 | every reported length is RL_BUFFER_SIZE, above the header size, and leaves room for the payload |
| LinkTheorems.Delivery | lib/rpmsg_lite/rpmsg_lite.c:187-209 | in every reachable state what was handed over is a prefix of what was sent, also before the remote's init, and the rest is what is pending |
| LinkTheorems.StepRefinesQueue | lib/rpmsg_lite/rpmsg_lite.c:685-752 | a channel step appends the message in the buffer whose entry is being published, removes the head, or leaves the abstract queue as it is |
| LinkTheorems.LinkRefinesFifos | lib/rpmsg_lite/rpmsg_lite.c:168-225 | every event of every run is one step of two FIFO queues, or none; what is appended is the message being published, and Publication shows whose that is |
| LinkTheorems.NoLostWakeup | lib/rpmsg_lite/porting/platform/imxrt1170/rpmsg_platform.c:40-54 | in every reachable state a non-empty receive ring has its doorbell set, or is being drained, or its sender is about to kick |
| LinkTheorems.KickRings | lib/rpmsg_lite/rpmsg_lite.c:209-242 | in every reachable state a kick after publishing, and the one after returning buffers, set the peer's bit for that vring and no other |
| LinkTheorems.QuietMeansDelivered | lib/rpmsg_lite/porting/platform/imxrt1170/rpmsg_platform.c:156-178 | when no handler runs, no bell is set and no kick is due, everything sent has been handed over, with or without the notification of returned buffers |
| LinkTheorems.LinkUpSafety | lib/rpmsg_lite/rpmsg_lite.c:1376-1380 | the remote's link is down and no buffer has been taken until both vrings are seeded and vring 0 has been kicked |
| LinkTheorems.LinkUpNotLost | lib/rpmsg_lite/rpmsg_lite.c:1376-1380 | once the master is ready the remote's link is up, or the bell for it is set or being served, even if the remote starts later |
| LinkTheorems.SeedingIsExclusive | lib/rpmsg_lite/rpmsg_lite.c:1276-1356 | while the master seeds, nothing else but the remote's init can happen |
| LinkTheorems.PoolIsSeeded | lib/rpmsg_lite/rpmsg_lite.c:1276-1356 | after seeding each free ring offers every descriptor once and each data ring is empty |
| LinkTheorems.IndexRoundTrip | lib/rpmsg_lite/rpmsg_lite.c:834-835 | while the application holds a buffer its header names its descriptor, on either side, and giving it back or sending it uses that index and the buffer's length |
| LinkTheorems.BuffersAreDistinct | lib/rpmsg_lite/rpmsg_lite.c:1287-1296 | two descriptors never share a buffer |
| LinkTheorems.CopiedMessage | lib/rpmsg_lite/rpmsg_lite.c:736-742 | the buffer then has the caller's source, destination and bytes, with the size modulo 2^16 in its length field, so it holds the message whole exactly when the size is below 2^16; the header index is untouched |
| LinkTheorems.FailedAttempt | lib/rpmsg_lite/rpmsg_lite.c:709-717 | an allocation attempt changes nothing exactly when the free ring is empty |
| Publication.OwnedBufferStays | lib/rpmsg_lite/rpmsg_lite.c:685-752 | over any run, a buffer on which its owner makes no step stays with it and unchanged, whatever else both cores do |
| Publication.WrittenGoesOut | lib/rpmsg_lite/rpmsg_lite.c:685-924 | over any run, any edits by the owner and then one send publish, once, exactly the message that these edits alone leave in the buffer |
| Publication.CopySendGoesOut | lib/rpmsg_lite/rpmsg_lite.c:733-752 | over any run whose own steps on the buffer are header, copy and send, the caller's source, destination and bytes (cut to 16 bits of size) go out once, and no other entry for the buffer |
| Publication.NoCopySendGoesOut | lib/rpmsg_lite/rpmsg_lite.c:898-924 | the same from a zero-copy allocation through the application's writing to the send by the header index |
| Publication.ReceivedMessageStays | lib/rpmsg_lite/rpmsg_lite.c:187-209 | from when a message is taken until it is given back it stays in its buffer as delivered, over any run |
| Progress.EverythingArrives | lib/rpmsg_lite/rpmsg_lite.c:187-213 | from every reachable state and for every way in which messages are held or returned, the receiver's handler and a kick that the sender owes suffice to hand over everything sent |
| Progress.EveryRunArrives | lib/rpmsg_lite/rpmsg_lite.c:187-213 | no run of such events, in any order, is stuck or longer than a bound known at its start as long as something has not been handed over |
| Progress.BuffersComeBack | lib/rpmsg_lite/rpmsg_lite.c:709-731 | such a run can also be carried on until every descriptor that neither the sender nor an application holds is on the free ring again, so that a waiting send finds a buffer unless they hold all n; with callbacks that hold nothing they hold no more than before |
| Startup.InitCompletes | lib/rpmsg_lite/rpmsg_lite.c:1192-1380 | from any state on the way, steps of the master's init alone lead it to the end |
| Startup.LinkComesUp | lib/rpmsg_lite/rpmsg_lite.c:235-242 | from every reachable state with the master ready and the remote started, the remote's own handler, without any further kick, brings its link up |
| Startup.ReadyIsReachable | lib/rpmsg_lite/rpmsg_lite.c:1380 | every configuration has runs in which the master is ready and both links are up |
| Pool.BufferSize | lib/rpmsg_lite/rpmsg_lite.c:101-105 | the buffer size is whole words and exceeds payload and header by less than a word |
| Pool.CountFits | lib/rpmsg_lite/rpmsg_lite.c:63-64 | m buffers are counted exactly when the region holds the vrings and m whole buffers fit into the whole words behind them; a region shorter than the vrings has none |
| Pool.CountsWhatFits | lib/rpmsg_lite/rpmsg_lite.c:63-64 | as buffers are whole words, m of them are counted exactly when vrings and buffers together are not longer than the region |
| Pool.BuffersDisjoint | lib/rpmsg_lite/rpmsg_lite.c:1287-1296 | no two buffers overlap |
| Pool.PoolIsSound | lib/rpmsg_lite/rpmsg_lite.c:1122-1186 | with region and overhead word aligned, every counted buffer is word aligned, behind the vrings, inside the region and apart from the others |
| Pool.OverrunsExactlyWhen | lib/rpmsg_lite/rpmsg_lite.c:1181-1186 | otherwise the pool leaves the region exactly when the buffers use every whole word and rounding up its base costs more than the bytes left over |
| Pool.UnalignedRegionOverruns | lib/rpmsg_lite/rpmsg_lite.c:1122-1186 | a region at address 1 that passes the size check and is overrun, with the macro's vring size and a buffer size that the code computes |
| Pool.PartsApart | lib/rpmsg_lite/rpmsg_lite.c:1181-1210 | on any region, also one that is not word aligned, the vrings start at the next word, one behind the other, and the pool behind them; each vring and what is cleared for it end before the next part begins |
| MasterInit.Master.NextBuffer | lib/rpmsg_lite/rpmsg_lite.c:1287-1296 | the next buffer of the pool, and null exactly when the pool is used up |
| MasterInit.Master.Carve | lib/rpmsg_lite/rpmsg_lite.c:1276-1356 | the nested loop never meets a null buffer or a failing call; both queues get n descriptors with consecutive buffers, entered in order from the index that clearing has left |
| MasterInit.Master.Start | lib/rpmsg_lite/rpmsg_lite.c:1276-1380 | when the peer is notified, all n entries are published on both rings |
| MasterInit.Init | lib/rpmsg_lite/rpmsg_lite.c:1012-1382 | succeeds exactly on a link number not too high, a region that is not null and not shorter than both vrings and 2n buffers, with everything granted; else it kicks nobody. Then vrings and pool are placed, the n descriptors of the two queues name consecutive buffers of the pool, all are entered, and were when the peer was kicked, and the link is up; seeding starts from index 0 and the peer is kicked where the memset reaches the headers, and else from the index and under the flag that were in memory; with a word-aligned region the pool ends inside it |
| MasterInit.TablesApart | lib/rpmsg_lite/rpmsg_lite.c:1276-1356 | each buffer in the tables of a successful init lies in the memory of the pool and overlaps no other, of either queue |
| MasterInit.StaleIndexOffersTwice | lib/rpmsg_lite/rpmsg_lite.c:1276-1356 | from an index that was not 0, the reader is offered more than n entries and gets a descriptor twice before any has been returned |
| MasterInit.SeededChannelInv | lib/rpmsg_lite/rpmsg_lite.c:1276-1356 | what the loop leaves on a queue satisfies the channel invariant, with every descriptor offered once |
| Endpoints.FreeFrom | lib/rpmsg_lite/rpmsg_lite.c:520-546 | the first address from a given one on that is not in use, all before it being used |
| Endpoints.ChosenIsLeast | lib/rpmsg_lite/rpmsg_lite.c:520-546 | an automatic address is the least free one, at most one more than the number of endpoints; creation cannot fail below 2^32 - 2 endpoints |
| Endpoints.RunDistinct | lib/rpmsg_lite/rpmsg_lite.c:547-590 | over any sequence of creations and destructions addresses stay distinct |
| Endpoints.WithoutAt | lib/rpmsg_lite/rpmsg_lite.c:620-637 | removing an address removes its endpoint and keeps the order of the others |
| Endpoints.WithoutUses | lib/rpmsg_lite/rpmsg_lite.c:620-637 | and keeps every other address in use |
| Endpoints.CreateThenDestroy | lib/rpmsg_lite/rpmsg_lite.c:520-637 | destroying what was just created restores the table |
| Endpoints.Table.Find | lib/rpmsg_lite/rpmsg_lite.c:133-148 | the lookup terminates and finds the endpoint registered under the address, null exactly when there is none |
| Endpoints.Table.Add | lib/common/llist.c:57-89 | puts the node in front; forward links and all backward links but the head's are right |
| Endpoints.Table.Unlink | lib/common/llist.c:100-133 | the pointers after a removal, for the head, the last and any other node; the new head's backward link stays stale |
| Endpoints.Table.Remove | lib/common/llist.c:100-133 | the list without that node, in the same order, under the weaker invariant |
| Endpoints.Table.LowestFree | lib/rpmsg_lite/rpmsg_lite.c:520-546 | the search returns the least address from 1 on that is not in use |
| Endpoints.Table.CreateEpt | lib/rpmsg_lite/rpmsg_lite.c:503-590 | the new endpoint is in front, has the callback and the context given, and the address given or else the least one not in use; null exactly when the address is in use, none is free, or there is no memory, and then nothing changes |
| Endpoints.Table.DestroyEpt | lib/rpmsg_lite/rpmsg_lite.c:606-637 | removes the endpoint with that address and no other; an error exactly when there is none, and then nothing changes |
| Polling.AttemptBound | lib/rpmsg_lite/rpmsg_lite.c:719-731 | a call that gives up makes at most one look plus one per interval of its time-out, and then exactly so many, if and only if the count of waited time does not wrap |
| Polling.TickBefore | lib/rpmsg_lite/rpmsg_lite.c:726-730 | until the count wraps, the call gives up exactly when it has slept for the time-out |
| Polling.EndsExactlyWhen | lib/rpmsg_lite/rpmsg_lite.c:719-731 | a call on a ring that stays empty ever gives up if and only if the time-out is at most 2^32 less the largest power of two that divides the interval |
| Polling.BlockNeverEnds | lib/include/rpmsg_lite.h:87 | RL_BLOCK with an interval of two: no count reaches it |
| Polling.BlockEndsLate | lib/include/rpmsg_lite.h:87 | RL_BLOCK with an interval of seven: it ends, after more looks than the time-out has intervals |
| Polling.DefaultInterval | lib/include/rpmsg_default_config.h:61 | with the default interval the count never wraps before the time-out, and every call ends |
| ChannelCalls.VqRx | lib/rpmsg_lite/rpmsg_lite.c:313-325 | with the sender moving between its accesses: null exactly when nothing is pending at the check; otherwise the oldest message moves to the caller by one whole read; with a quiet sender nothing else changes |
| ChannelCalls.VqTxAlloc | lib/rpmsg_lite/rpmsg_lite.c:290-302 | with the peer moving between its accesses: null exactly when the free ring is empty at the check; otherwise its oldest descriptor moves to the caller by one whole read, and the caller's other buffers do not change |
| ChannelCalls.VqRxFree | lib/rpmsg_lite/rpmsg_lite.c:335-347 | with the sender moving between its accesses, the descriptor is published on the free ring with the length of its buffer, by one whole write; the caller's other buffers do not change; with a quiet sender nothing else does |
| ChannelCalls.ReleaseRxBuffer | lib/rpmsg_lite/rpmsg_lite.c:961-965 | the same for a buffer of the application, by the index in its header |
| ChannelCalls.PeerStepMoves | lib/rpmsg_lite/rpmsg_lite.c:313-347 | every step of the consumer is a move that the methods below allow between any two of their accesses |
| ChannelCalls.PeerMovedTwice | lib/rpmsg_lite/rpmsg_lite.c:313-347 | and so is any number of its steps, one after the other |
| ChannelCalls.SenderStepMoves | lib/rpmsg_lite/rpmsg_lite.c:266-302 | and every step of the producer one that the methods of the receiving side allow |
| ChannelCalls.SenderMovedTwice | lib/rpmsg_lite/rpmsg_lite.c:266-302 | and so is any number of its steps |
| ChannelCalls.VqTx | lib/rpmsg_lite/rpmsg_lite.c:266-279 | with the peer moving between its accesses, the message in the buffer is published as the next one by one whole write; the producer's other buffers do not change |
| ChannelCalls.VqTxNoCopy | lib/rpmsg_lite/rpmsg_lite.c:905-916 | the same for a buffer of the application, by the index in its header |
| Sending.FormatMessage | lib/rpmsg_lite/rpmsg_lite.c:733-747 | with the peer moving between header, payload and every access of the publication, what is published is source, destination and payload of the caller, cut to its size modulo 2^16; no other buffer of the producer changes |
| Sending.SendFilled | lib/rpmsg_lite/rpmsg_lite.c:898-916 | the same for what the application has written into its buffer |
| Outcomes.HandlerIsUser | lib/rpmsg_lite/rpmsg_lite.c:189-204 | a message goes to the one endpoint with its destination, and to none when there is none; whether it is held is up to that endpoint, and without one it is not |
| Outcomes.OutcomeOf | lib/rpmsg_lite/rpmsg_lite.c:187-209 | the same for all messages of a run at once: by their places, which go to a callback, and to which endpoint's, which are kept, returned, and queued |
| Devices.JobIs | lib/rpmsg_lite/rpmsg_lite.c:187-209 | the messages that a run of the receive callback has before it are those pending, in order, each as it was sent and still in its buffer |
| Devices.Device.Serve | lib/rpmsg_lite/rpmsg_lite.c:187-209 | one turn: without an endpoint for the destination there is no callback and the descriptor is published on the free ring; otherwise the endpoint with that address is called, once, and the buffer kept exactly if it is the queue's or answers hold |
| Devices.Device.Drain | lib/rpmsg_lite/rpmsg_lite.c:187-213 | the loop, turn by turn: as many turns as messages pending; one kick exactly if configured and something was returned |
| Devices.Device.RxCallback | lib/rpmsg_lite/rpmsg_lite.c:168-225 | everything sent is delivered; for every message, by its place: it went to a callback exactly if an endpoint has its destination, to that endpoint's, once and in order; its buffer is kept exactly if that endpoint is the queue's or answers hold, and else published on the free ring once; one kick exactly if configured and something was returned |
| Devices.Device.AllocTx | lib/rpmsg_lite/rpmsg_lite.c:709-731 | with the peer running all the while: it looks, and between any two looks sleeps for one interval; it sleeps only if the ring was empty and it may wait, takes what the first successful look finds, and gives up after exactly the look at which the count has first reached the time-out; then the ring was empty at the start and is, and the producer's side is as it was |
| Devices.Device.TxCallback | lib/rpmsg_lite/rpmsg_lite.c:235-242 | the link is up, and from then on no send or allocation is refused for it |
| Devices.Device.Send | lib/rpmsg_lite/rpmsg_lite.c:754-782 | which status on which arguments, each exactly; with the link down nothing is sent; a refusal changes nothing; past the checks it looks and sleeps as AllocTx does and fails only when the time-out is over on a ring empty at the start and at the end; on success exactly the caller's message is sent, whatever the peer does meanwhile, and the peer kicked once |
| Devices.Device.AllocTxBuffer | lib/rpmsg_lite/rpmsg_lite.c:788-859 | a buffer whose header names its descriptor, and its size less the header, at least the payload size; none and size 0 exactly while the link is down, without a look, or when the time-out is over on a ring empty at the start and at the end, with looks and sleeps as in AllocTx |
| Devices.Device.SendNocopy | lib/rpmsg_lite/rpmsg_lite.c:861-924 | which status on which arguments, each exactly; with the link down nothing is sent; on success what the application wrote is sent and the buffer is no longer its own |
| Devices.Device.ReleaseBuffer | lib/rpmsg_lite/rpmsg_lite.c:934-978 | the descriptor of that buffer is returned once, with a kick exactly if configured; messages waiting in the queue stay intact |
| Devices.RxQueue.RxCb | lib/rpmsg_lite/rpmsg_queue.c:36-54 | holds the message exactly when it went into the queue |
| Devices.QueueBound | lib/rpmsg_lite/rpmsg_queue.c:78-82 | messages in the queue and buffers handed out without copying never outnumber the ring, so a queue of twice its size is never full |
| Devices.HoldKeepsQueue | lib/rpmsg_lite/rpmsg_lite.c:201-204 | holding a message leaves every queued message intact in its buffer |
| Devices.Device.QueueRecv | lib/rpmsg_lite/rpmsg_queue.c:107-159 | the oldest message; its buffer is returned once whether or not it fits, with a kick exactly if configured; on an empty queue an error and no change |
| Devices.Device.QueueRecvNocopy | lib/rpmsg_lite/rpmsg_queue.c:161-201 | the oldest message, whose buffer the application keeps |
| Devices.Device.NocopyFree | lib/rpmsg_lite/rpmsg_queue.c:203-221 | gives that buffer back, with a kick exactly if configured, and leaves the queue intact |
| Doorbell.RingIsServed | lib/rpmsg_lite/porting/platform/imxrt1170/rpmsg_platform.c:40-54 | a bit that is set is served before the handler ends or still set then, however the peer rings |
| Doorbell.MovesAreEvents | lib/rpmsg_lite/porting/platform/imxrt1170/rpmsg_platform.c:40-54 | the handler's steps and the peer's rings are events of the link with the same effect, possible in the same states but for what ending the drain loop asks of the receive ring |
| Doorbell.Mu.Trigger | lib/rpmsg_lite/porting/platform/imxrt1170/rpmsg_platform.c:156-178 | sets the flag of its vector and no other |
| Doorbell.Mu.MuIsr | lib/rpmsg_lite/porting/platform/imxrt1170/rpmsg_platform.c:40-54 | serves exactly the vectors found set, first 0 and then 1, each cleared before it is served, with the peer ringing in between |

## Left out

- Devices.Device.AllocTx: requires `Ends`, the exact condition under which it ends on a ring that stays empty (Polling.EndsExactlyWhen); without it the call waits until the peer returns a buffer. Send and AllocTxBuffer inherit it.
- Devices.Device.RxCallback: has the peer quiet, as the count of turns and the single kick need; the loop beside a running peer is in System and Progress.
- Devices.Device.RxCallback: callbacks decide on the message alone; a callback that sends or releases from inside is covered by the steps of System only.
- Devices.Device.ReleaseBuffer: has the peer quiet, as have QueueRecv and NocopyFree, because their contracts give the whole new state; the release beside a running peer is ChannelCalls.ReleaseRxBuffer.
- MasterInit.Init: the memory of the buffers is not part of it (zeroing is in ChannelSteps.DoSeed), nor is freeing what was granted before a failure; the checks of a custom shared-memory configuration are left out.
- Holding a message from the receive callback and writing its index into the header are one step, as are reading or writing a whole buffer; Ownership shows that the other core touches none of it meanwhile.
- Clearing used buffers (RL_CLEAR_USED_BUFFERS) is one step with the choice of the ring slot, both before the index is published.
- Races between an interrupt handler and a task inside one ring update on the same core: assumed away, see above.
- Weak memory, cache flushes and invalidations.
- The EVENT_IDX path, `virtqueue_enable_cb` and `vring_need_event`: not reachable here.
- `vq_free_cnt`, indirect descriptors, the flags and the `next` chain of descriptors: never followed.
- Re-initialising one side while the other keeps running, and deinit.
- Address translation: taken as the identity.
- The aarch64 mailbox, MCMGR, the other platforms and the RTOS layers; the RTOS queue is a bounded FIFO.
- Name service, custom shared-memory configurations, static allocation: they add no new behaviour to the core.
- Null-pointer arguments other than endpoint, data and buffer, and the debug checks of RL_DEBUG_CHECK_BUFFERS.

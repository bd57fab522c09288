# Verified model of the player firmware's hard core

The repository ports small ARM functions one at a time. Most are leaf accessors; a few families keep
linked state, conserve resources, follow a protocol across callbacks, or do bounded arithmetic that
wraps. This project models those families in Dafny and proves what holds of them over every run.

Where the source changes words in place, so does the model: a class or an array with the source's
fields, changed by methods in the source's order of loads and stores. Each such method is proved equal
to a step on plain values, and the statements about runs are lemmas about those steps.

| file | what it models |
|---|---|
| `Words.dfy` | 32-bit words, wrapping, signed reinterpretation, words as bit sets |
| `WheelModel.dfy`, `TimingWheel.dfy` | the twelve-bucket timing wheel: sequences of nodes, and the intrusive prev/next form that refines them |
| `AnimationModel.dfy`, `AnimationEffects.dfy`, `AnimationRuns.dfy`, `AnimationDrains.dfy`, `AnimationRanks.dfy`, `PlainRuns.dfy`, `LowRuns.dfy` | reference counts, drained objects, slots, ranks and buckets over runs of the animation operations and of other owners |
| `Animations.dfy`, `PropertyPair.dfy` | the same operations in place, and the property-pair construction over them |
| `BufferedReader.dfy` | the refill: compaction, one capped read, EOF latch, unlimited sentinel |
| `BlockTiling.dfy`, `StreamModel.dfy`, `BufferedStreams.dfy` | block ranges, pending flush, collection walk, destroy |
| `LevelModel.dfy`, `LevelController.dfy` | the stream-buffer level controller, in the ARM form with separate level and requested words |
| `AudioRing.dfy`, `BoundedPosition.dfy`, `ScreenPosition.dfy` | ring rotation, clamped positions, delta-or-absolute sends |
| `Association.dfy`, `BankedSlots.dfy`, `SystemInfo.dfy` | notification order and balance, slot addresses and close, lazy caches |

Callees that are virtual or not ported are parameters. Where one can write the state, it is an arbitrary
function of the state that is given anew per call or takes the number of the call, so no two calls need
agree; what a theorem needs of it is a named predicate in that theorem's `requires` (`Reachable`,
`LeavesOwners`, `LeavesInhibit`, `KeepsBlocked`, `Quiet`, `Publishes`, `KeepsLength`, `LeavesEmpty`).

## Findings

Places where the code does less, or other, than its description or the natural law suggests. Each is
stated exactly in the model.

- Property pair: `fixed_value_init` leaves the counted bit clear, so the "drop of two temporary
  references" (src/app/animation_property_pair_init.rs:17, :68-69) and the retains on the endpoints are
  no-ops, and no run ever drains those values (`PairTailChangesNothing`, `RunNeverDrainsUncounted`).
- Rank order: an animation that is itself held by another can be raised past its holder
  (`NestedRankOvertakes`); `StepOrder` gives the exact condition, and `PlainRunStaysOrdered` the case of plain
  values, where it always holds.
- Missing bounds check: an insert writes past the heads exactly when the rank is above 12 and at most
  2^31. `PlaceableExactlyWhen` says for every operation, and `RunIsEnabledExactlyWhen` for every run, when
  that cannot happen.
- Stale rank: a default construction keeps the rank word it finds, so it depends on that word whether the
  next rebind stays within the table (`StaleRankExactlyWhen`); over 13 it links into the guard word
  (`StaleRankLeavesTheTable`).
- Reader: a cursor plus request that wraps skips a refill with too little buffered (`GateExact`); a request
  of 2^32 less the capacity does it after one refill (`WrappedGateStarves`), smaller ones never do
  (`SmallRequestsAreServed`).
- Shared buffers: two streams that own one buffer free it twice (`SharedFreesTwice`), and sharing is all
  that can make it happen (`AlwaysFreesOnceExactlyWhen`).
- Block flush: the last block overruns exactly when the block-rounded length reaches 2^32
  (`TilingExactWhen`, `LastBlockOverruns`); an index past the end flushes nearly 2^32 bytes
  (`InsideExactlyWhen`, `IndexPastEndOverruns`).
- Level advance: the hold at 3 only holds from at most 3. From above it the level climbs to the base, or
  over the top of the word (`ConvergesExactlyWhen`).
- Audio ring: records that are 64 or 357914005 modulo 2^30 have a control word for their length
  (`ControlsSparedExactlyWhen`, `ReleaseSparesExactlyWhen`). From an in-range index the ring rotates
  exactly when its last index is at most 63 (`RotatesExactlyWhen`).
- Audio acquire: it reloads index and length after it unlocks, so a release in between makes it answer the
  next record's length beside this record's address (`AnswerBelongsExactlyWhen`, `GapAnswersNextRecord`).
- Bounded position: a relative sum past the signed word lands on 0, not on the bound
  (`RelativeIsClampExactlyWhen`, `LargestStepLandsOnZero`).
- Associated object: a replacement made within a removal notice is overwritten by the store with no
  removal given for it (`NestedReplacementIsLost`, `NestedInStepExactlyWhen`).
- Board generation: asked before the version is known, it is 2 for good, even for a generation-1 board
  (`GenerationAgreesExactlyWhen`, `EarlyGenerationIsWrong`).
- Storage status: its comment says the pin target returns 2 or 3; a failed pin read returns 0
  (src/drivers/storage_backend_pin_89_status.rs:15-17; `PinStatusExactlyWhen`, `FailedPinReadAnswersZero`).

## Model

| member | source | states |
|---|---|---|
| `WheelModel.FlagsWord` | src/app/refcounted_value.rs:62-95 | the linked bit, counted bit and count field lose nothing of the 32-bit flags word, and the linked bit and the drain test are the word operations of the source |
| `WheelModel.FlagsStep` | src/app/refcounted_value.rs:62-95 | a step of the count field is the wrapping step of four on the word, which leaves both low bits alone |
| `WheelModel.DeleteMembers` | src/app/animation.rs:276-302 | removing one node from a duplicate-free bucket removes that node and no other |
| `WheelModel.LinkKeepsWF` | src/app/animation.rs:165-185 | an insert whose bucket exists keeps the twelve buckets duplicate-free, rank b+1 in bucket b, and linked bits equal to membership |
| `WheelModel.UnlinkKeepsWF` | src/app/animation.rs:276-302 | a remove keeps the same invariant and leaves the node unlinked |
| `WheelModel.LinkThenUnlink` | src/app/animation.rs:165-302 | insert followed by remove restores the whole simple form |
| `WheelModel.UnlinkThenLink` | src/app/animation.rs:165-302 | remove followed by insert moves the node to the head of its bucket and keeps the order of all others |
| `AnimationEffects.InsertEffect` | src/app/animation.rs:165-185 | insert, bucket by bucket and word by word: an unlinked node heads the bucket of its rank if that is 1 to 12, and its linked bit says so; everything else is as it was |
| `AnimationEffects.RemoveEffect` | src/app/animation.rs:276-302 | remove, likewise: the node is out of its bucket with the bit clear; everything else is as it was |
| `TimingWheel.Wheel.constructor` | src/app/animation.rs:208-236 | the zeroed thirteen-word table is a valid empty wheel |
| `TimingWheel.Wheel.Insert` | src/app/animation.rs:165-185 | the stores to head, prev, next and flags refine prepending to the bucket of rank-1; no change for a negative bucket word or a linked node; links of idle nodes stay as they were |
| `TimingWheel.Wheel.Remove` | src/app/animation.rs:276-302 | the stores refine deleting that one node from the bucket of its current rank, in order; the node keeps its own link words; no change when not linked |
| `TimingWheel.Wheel.ViewDeterminesLinks` | src/app/animation.rs:165-302 | prev and next are exact inverses with null at both ends: the buckets determine every head word and both links of every linked node |
| `TimingWheel.Wheel.BucketsApart` | src/app/animation.rs:165-302 | no bucket shares a node with another, and a node whose bit is clear is in none |
| `TimingWheel.Wheel.InsertThenRemove` | src/app/animation.rs:165-302 | insert then remove restores all thirteen head words and both links of every other node, word for word |
| `TimingWheel.SpliceFront` | src/app/animation.rs:176-184 | the insert stores, in order, turn a well-linked chain into the same chain with the node in front |
| `TimingWheel.SpliceOut` | src/app/animation.rs:287-301 | the remove stores, in order, take the i-th node out of a well-linked chain, at either end or inside |
| `TimingWheel.Scheduler.GetOrCreate` | src/app/animation.rs:208-236 | the first call makes one empty wheel, every later call returns that wheel untouched |
| `TimingWheel.Scheduler.InsertGlobal` | src/app/animation.rs:339-341 | insert into the wheel behind the global word |
| `TimingWheel.Scheduler.RemoveGlobal` | src/app/animation.rs:318-320 | remove from the wheel behind the global word |
| `AnimationModel.Highest` | src/app/animation.rs:407-424 | the branches over three aux words return an upper bound of all three that is one of them |
| `AnimationModel.ExchangeShifts` | src/app/animation.rs:374-400 | retaining new values and then releasing old ones moves a count by occurrences gained minus occurrences lost, modulo its width, for every aliasing |
| `AnimationModel.ReleaseAllDrains` | src/app/refcounted_value.rs:62-76 | a sequence of releases drains a value once, exactly when its last reference is among them |
| `AnimationModel.ExchangeDrains` | src/app/animation.rs:493-515 | a rebind drains a value exactly when it is not bound again and the old slots held every reference to it |
| `AnimationModel.ExchangeCounts` | src/app/animation.rs:493-515 | with room to count, the exact count after retaining and releasing |
| `AnimationEffects.RetainEffect` | src/app/refcounted_value.rs:88-95 | retain, on the flags word: plus four with wrap if bit 1 is up, and no other word |
| `AnimationEffects.ReleaseEffect` | src/app/refcounted_value.rs:62-76 | release, on the flags word: minus four with wrap if bit 1 is up, and the deleting destructor exactly when less than four is left |
| `AnimationEffects.NewValueEffect` | src/app/fixed_value.rs:173-182 | the words of a new fixed value, and nothing else changed |
| `AnimationEffects.DefaultInitEffect` | src/app/animation.rs:451-460 | the words of a default-constructed animation, its rank as found, and nothing else changed |
| `AnimationEffects.InitEffect` | src/app/animation.rs:359-430 | the words of a new animation, its place at the head of the bucket of its rank, and one reference taken for each slot |
| `AnimationEffects.SetValuesEffect` | src/app/animation.rs:483-538 | set_values: the three slots, the rank, the place at the head of the bucket of that rank or off the wheel if it has none, every count moved by gained less lost, and every other word and bucket order as it was |
| `AnimationEffects.SetCurrentEffect` | src/app/animation.rs:558-584 | set_current_value: the same for the current slot and the raised rank |
| `AnimationEffects.DestroyEffect` | src/app/animation.rs:619-644 | destroy: off the wheel with the bit clear, base vtable, slot words kept, counts given back, and every other word and bucket order as it was |
| `AnimationRuns.StepKeepsWF` | src/app/animation.rs:165-644 | each of insert, remove, value and animation construction, set_values, set_current_value, destroy, and the adoption, retain and release of objects by other owners keeps the wheel invariant |
| `AnimationRuns.RunConserves` | src/app/animation.rs:165-644 | over every run, for every object and aliasing: the wheel invariant holds, and a counted object's count minus the live slots holding it moves exactly by the retains and releases of other owners |
| `AnimationRuns.StepConserves` | src/app/animation.rs:165-644 | the same of a single operation: what it counts and what it stores agree, with the outside ledger moved by outside operations only |
| `AnimationRuns.RebindOwned` | src/app/animation.rs:374-405 | rewriting one animation moves the slots that hold a value by gained minus lost occurrences |
| `AnimationDrains.NewObjectsUncounted` | src/app/fixed_value.rs:122-131 | a constructor leaves the counted bit clear |
| `AnimationDrains.StepKeepsSound` | src/app/animation.rs:359-644 | an operation leaves every live slot backed by a reference, if other owners give back only what no slot owns |
| `AnimationDrains.RunStaysSound` | src/app/animation.rs:359-644 | over every run in which no counted object's count overflows and other owners give back what is theirs, no counted object has fewer references than live slots holding it |
| `AnimationDrains.StepDrains` | src/app/animation.rs:359-644 | one rule for all operations: the count moves by what is bound less what is given back, and the object is drained exactly when it is given back to the last reference and not bound |
| `AnimationDrains.DrainedIsNotHeld` | src/app/animation.rs:359-644 | an object drained with its last reference stands in no live slot |
| `AnimationDrains.RunNeverDrainsHeld` | src/app/animation.rs:359-644 | over every run in which no counted object's count overflows, that binds nothing drained and in which other owners give back what is theirs: each object is drained at most once, and no live slot ever holds a drained one |
| `AnimationDrains.SetValuesDrains` | src/app/animation.rs:493-515 | set_values drains a value exactly when it is unbound and only this animation held it; what it binds keeps a reference |
| `AnimationDrains.SetCurrentDrains` | src/app/animation.rs:563-574 | set_current_value drains the old current exactly when it differs from the new one and had one reference; rebinding the sole holder is safe |
| `AnimationDrains.DestroyDrains` | src/app/animation.rs:619-644 | destroy gives back one reference per nonzero slot and drains exactly the values with no other |
| `AnimationDrains.BoundThroughout` | src/app/animation.rs:493-520 | a value being bound keeps a reference after every prefix of the releases, so the later aux reads touch no drained value |
| `AnimationRanks.RankOverIsMax` | src/app/animation.rs:407-426 | without wrap the new rank is one more than the three-way maximum |
| `AnimationRanks.RankAfter` | src/app/animation.rs:359-644 | no operation changes a rank except a rebind of that animation |
| `AnimationRanks.RunTracksHistory` | src/app/animation.rs:407-584 | over every run, interleaved with anything on other objects, rank is 1 plus the largest aux word read since the last full rebind |
| `AnimationRanks.InitStartsHistory` | src/app/animation.rs:407-426 | construction starts that history with the three aux words |
| `AnimationRanks.RebindOrder` | src/app/animation.rs:483-584 | a rebind keeps animations ranked above what they hold if and only if the new rank exceeds every held aux and stays below every holder |
| `AnimationRanks.StepOrder` | src/app/animation.rs:359-644 | an operation keeps that order if and only if a condition its caller can check before the call holds |
| `AnimationRanks.RunStaysOrdered` | src/app/animation.rs:359-644 | hence every state a run goes through has each animation outranking all three values it holds if and only if every call of the run meets that condition |
| `PlainRuns.PlainIsOrderSafe` | src/app/animation.rs:483-584 | binding plain values with an aux below 2^32-1 meets that condition, given that animations so far hold plain values only |
| `PlainRuns.StepKeepsPlain` | src/app/animation.rs:359-644 | and every operation of that kind keeps it so |
| `PlainRuns.PlainRunStaysOrdered` | src/app/animation.rs:407-584 | hence with plain values, whose aux words are fixed, every reachable state has each animation ranked strictly above all three values it holds |
| `PlainRuns.EmptyStarts` | src/app/animation.rs:208-236 | the zeroed table starts every one of these invariants, low ranks included |
| `PlainRuns.RunFromEmpty` | src/app/animation.rs:165-644 | from the zeroed table, every run of low ranks that binds plain values and is careful with references finds every bucket, keeps wheel and order, and never drains what is held |
| `LowRuns.PlaceableExactlyWhen` | src/app/animation.rs:165-185 | for every operation, a condition on rank and aux words that holds if and only if the operation's insert finds its bucket or returns at the signed test |
| `LowRuns.RunIsEnabledExactlyWhen` | src/app/animation.rs:165-185 | so the runs that never write past the heads are exactly those whose every operation meets it |
| `LowRuns.StepKeepsLow` | src/app/animation.rs:165-644 | with values of aux at most 11 and no rank above 12 brought in, every rank stays at most 12 |
| `LowRuns.LowRunIsEnabled` | src/app/animation.rs:165-185 | hence such runs, of which nothing is assumed about buckets, meet that condition throughout, and are runs that the other theorems speak of |
| `LowRuns.StaleRankExactlyWhen` | src/app/animation.rs:451-460 | a default construction keeps the rank word it finds: for every such word and aux word, the next set_current_value stays within the table if and only if the condition holds, and otherwise links past the heads |
| `LowRuns.StaleRankLeavesTheTable` | src/app/animation.rs:451-460 | over storage holding 13 it is the guard word, for every aux word of at most 12 |
| `AnimationRanks.NestedRankOvertakes` | src/app/animation.rs:558-584 | the order is not unconditional: from every ordered state with a value of aux zero, three constructions keep it, and then an animation held by another is raised to its holder, which is not ranked again |
| `Animations.RetainValue` | src/app/refcounted_value.rs:88-95 | the count steps up by one, modulo its width, if the counted bit is set |
| `Animations.ReleaseValue` | src/app/refcounted_value.rs:62-76 | the count steps down, and the drain is reported exactly when the new count is zero |
| `Animations.StoreValues` | src/app/animation.rs:402-426 | slot stores, then rank from the aux words of the stored values |
| `Animations.StoreCurrent` | src/app/animation.rs:574-581 | current store, then rank raised by unsigned comparison |
| `Animations.FixedValueInit` | src/app/fixed_value.rs:173-182 | a scalar over any storage: aux zero, flags zero |
| `Animations.AnimationInit` | src/app/animation.rs:359-430 | the in-place construction, defensive remove and dead releases included, reaches exactly the modelled state |
| `Animations.AnimationDefaultInit` | src/app/animation.rs:451-460 | the in-place default construction reaches exactly the modelled state |
| `Animations.AnimationSetValues` | src/app/animation.rs:483-538 | unlink, retain, release, store, rank, link in place reach exactly the modelled state, wheel valid throughout |
| `Animations.AnimationSetCurrentValue` | src/app/animation.rs:558-584 | the same for the current value alone |
| `Animations.AnimationDestroy` | src/app/animation.rs:619-644 | release, base vtable and unlink in place reach exactly the modelled state; the slots keep their words |
| `PropertyPair.PairTailChangesNothing` | src/app/animation_property_pair_init.rs:49-72 | the two releases and the second insert change nothing, because freshly built values are not counted |
| `PropertyPair.PairResult` | src/app/animation_property_pair_init.rs:49-72 | what the sequence leaves: slots, rank one past the current value's aux, one reference taken to the current value, endpoints word for word as built |
| `PropertyPair.PairWords` | src/app/animation_property_pair_init.rs:49-72 | vtable, shown word, aux and flags of both endpoints and of the animation, and its place on the wheel |
| `AnimationDrains.RunNeverDrainsUncounted` | src/app/refcounted_value.rs:62-76 | over any run, an object with a clear counted bit is never handed to its deleting destructor |
| `PropertyPair.AnimationPropertyPairInit` | src/app/animation_property_pair_init.rs:49-72 | the allocations, constructions, releases and links in place, each object stored in its owner's slot as it is made, reach that state, with fresh distinct objects and an owner that holds exactly them |
| `BufferedReader.StepKeepsStream` | src/app/buffered_reader_refill.rs:40-65 | one refill or advance keeps consumed ++ unread ++ rest, and bytes taken plus remaining unless unlimited |
| `BufferedReader.RunKeepsStream` | src/app/buffered_reader_refill.rs:40-65 | over every interleaving of refills and advances the client sees the bytes of the unbuffered source in order, and the limit is accounted for |
| `BufferedReader.RefillEffect` | src/app/buffered_reader_refill.rs:40-65 | one refill word by word: untouched behind its gate, and otherwise one read of what room, limit, offer and source allow |
| `BufferedReader.RefillServes` | src/app/buffered_reader_refill.rs:41-64 | a refill that its source does not starve ends with enough unread, a full buffer, an exhausted source or an exhausted limit |
| `BufferedReader.RefillUnneeded` | src/app/buffered_reader_refill.rs:41-43 | one that finds enough unread, without wrap, changes nothing |
| `BufferedReader.EofIsForever` | src/app/buffered_reader_refill.rs:40-43 | once the latch is set with nothing unread every later operation is the identity |
| `BufferedReader.RunLatchesEmpty` | src/app/buffered_reader_refill.rs:62-64 | the latch is only ever set with nothing unread |
| `BufferedReader.RunStaysTruthful` | src/app/buffered_reader_refill.rs:53-64 | with a source that answers a request for bytes it has, EOF means source, limit or buffer is exhausted |
| `BufferedReader.EofMeansDelivered` | src/app/buffered_reader_refill.rs:40-65 | a run that ends in EOF has delivered the whole source, or exactly the limit |
| `BufferedReader.GateExact` | src/app/buffered_reader_refill.rs:41-43 | a refill is skipped with too little unread exactly when cursor plus request wraps |
| `BufferedReader.RunKeepsCursor` | src/app/buffered_reader_refill.rs:40-65 | no run of refills and advances takes the cursor past the buffered count |
| `BufferedReader.SmallRequestsAreServed` | src/app/buffered_reader_refill.rs:41-43 | so over every run from opening, a request that with the capacity stays below 2^32 is never skipped with too little unread |
| `BufferedReader.WrappedGateStarves` | src/app/buffered_reader_refill.rs:41-43 | a request of 2^32 less the capacity is, for every capacity: one full refill and an advance over it leave nothing unread and bytes in the source, and the refill does nothing |
| `BufferedReader.Reader.Compact` | src/app/buffered_reader_refill.rs:44-52 | compaction in place moves the unread bytes to the front and changes no byte past the capacity |
| `BufferedReader.Reader.Fill` | src/app/buffered_reader_refill.rs:53-61 | at most one read, capped by room and by remaining, appended behind the unread bytes |
| `BufferedReader.Reader.Refill` | src/app/buffered_reader_refill.rs:40-65 | the in-place refill does to the buffer and its words what the stream model says |
| `BlockTiling.RangeExactWhen` | src/app/buffered_stream_flush_pending.rs:111-119 | a block's offset and length are right if and only if the end of its full block does not wrap |
| `BlockTiling.RangeOfWords` | src/app/buffered_stream_flush_pending.rs:111-119 | offset and length of a flush for any three words, in unwrapped arithmetic |
| `BlockTiling.InsideExactlyWhen` | src/app/buffered_stream_flush_pending.rs:111-119 | the range of a flush lies inside the object if and only if its wrapped offset does and the end of its full block does not wrap to short of the object's |
| `BlockTiling.IndexPastEndOverruns` | src/app/buffered_stream_flush_pending.rs:111-119 | a block index past the end of the object flushes a length just short of 2^32 |
| `BlockTiling.TilingExactWhen` | src/app/buffered_stream_flush_pending.rs:111-119 | all blocks of a backing object of any length are right if and only if its length rounded up to blocks fits in a word |
| `BlockTiling.EachByteOnce` | src/app/buffered_stream_flush_pending.rs:111-119 | under that condition a byte is in a block's range exactly when it is in the object and the block is its quotient: nonoverlapping, inside, covering |
| `BlockTiling.EveryByteCovered` | src/app/buffered_stream_flush_pending.rs:111-119 | every byte has a block index below the block count |
| `BlockTiling.LengthsSum` | src/app/buffered_stream_flush_pending.rs:111-119 | the flushed lengths sum to the backing length |
| `BlockTiling.LastBlockOverruns` | src/app/buffered_stream_flush_pending.rs:111-119 | a word-sized object whose last flush covers one byte too many |
| `StreamModel.FlushAccounts` | src/app/buffered_stream_flush_pending.rs:106-124 | a flush keeps pending blocks plus dispatches of every stream, and leaves its own stream clean |
| `StreamModel.FlushEffect` | src/app/buffered_stream_flush_pending.rs:106-124 | with the active or the pending byte zero nothing happens and zero is answered; otherwise one dispatch of the stream's block in its flush context, the helper's status, and the pending byte cleared |
| `StreamModel.DestroyAccounts` | src/app/buffered_stream_destroy.rs:36-49 | a destroy does so too, frees at most the buffer still owned, and exactly that one if the helper drops no owner |
| `StreamModel.WalkAccounts` | src/app/buffered_stream_collection_flush.rs:31-40 | so does a collection walk, however often a state is listed and wherever callees move the end |
| `StreamModel.RunAccounts` | src/app/buffered_stream_collection_flush.rs:31-40 | over any mix of the three operations and every helper behaviour, each pending block is dispatched at most once, exactly once if it ends clean, and each stream frees at most one buffer; under a helper that drops no owner, buffers owned plus freed are constant |
| `StreamModel.RunFreesWhatItTakes` | src/app/buffered_stream_destroy.rs:36-49 | under such a helper nothing leaks: over any run a stream frees one buffer if it had one and ends without, and none otherwise |
| `StreamModel.RunFreesAtMost` | src/app/buffered_stream_destroy.rs:36-49 | over any run and helper behaviour, a buffer is freed at most as often as streams owned it at the start |
| `StreamModel.SharedFreesTwice` | src/app/buffered_stream_destroy.rs:36-49 | destroying two streams that own one buffer frees it twice |
| `StreamModel.FreesOnceExactlyWhen` | src/app/buffered_stream_destroy.rs:36-49 | under any helper that leaves owners alone, no run frees a buffer twice if and only if no two streams own one buffer at the start |
| `StreamModel.AlwaysFreesOnceExactlyWhen` | src/app/buffered_stream_destroy.rs:36-49 | and so for all helpers at once, those that drop owners included |
| `StreamModel.RunFaithful` | src/app/buffered_stream_flush_pending.rs:111-121 | whatever goes out over any run is the offset and length of its stream's own block, in its own flush context |
| `StreamModel.WalkCleans` | src/app/buffered_stream_collection_flush.rs:31-40 | every entry before the final end is clean after a walk, errors or not |
| `StreamModel.WalkStep` | src/app/buffered_stream_collection_flush.rs:31-40 | a walk turn by turn: the entry flushed, the statuses joined, and the end reloaded as the callee left it |
| `StreamModel.MovedEndIsFollowed` | src/app/buffered_stream_collection_flush.rs:31-40 | an entry that a callee brings in by moving the end is flushed by the same walk |
| `StreamModel.SecondFlushIdle` | src/app/buffered_stream_collection_flush.rs:31-40 | a repeated collection flush returns zero and changes nothing |
| `StreamModel.FlushAllDispatches` | src/app/buffered_stream_collection_flush.rs:31-40 | each dirty entry before the final end is dispatched by that very walk, once |
| `StreamModel.FlushAllStatus` | src/app/buffered_stream_collection_flush.rs:33-39 | a bit is in the result if and only if one of the walk's calls raised it |
| `StreamModel.DestroyOrder` | src/app/buffered_stream_destroy.rs:36-49 | by the words: nothing without an owner; otherwise the block that is due, then the free of the owner if the flush left it, then owner and context cleared; a second destroy does nothing |
| `BufferedStreams.Streams.FlushPending` | src/app/buffered_stream_flush_pending.rs:106-124 | the in-place flush reaches the modelled state and status |
| `BufferedStreams.Streams.CollectionFlush` | src/app/buffered_stream_collection_flush.rs:31-40 | the loop with its reloaded end reaches the modelled walk and status, and terminates when the end moves only to reachable boundaries |
| `BufferedStreams.Streams.Destroy` | src/app/buffered_stream_destroy.rs:36-49 | the in-place destroy reaches the modelled state |
| `Words.OrIsUnion` | src/app/buffer_refill_request.rs:144-154 | bitwise or of words is union of their bit sets |
| `Words.BicIsDifference` | src/app/buffer_refill_request.rs:144-154 | and-not of words is difference of their bit sets |
| `LevelModel.FlagMasks` | src/app/buffer_transition_controller.rs:325-356 | the bit numbers stand for the masks, and the shifted complement is the floor |
| `LevelModel.RequestBounds` | src/app/buffer_transition_controller.rs:337-358 | the level chosen for a request is never past the base, the floor aside, and for a floor request it is the floor whatever the base |
| `LevelModel.LevelByFlags` | src/app/buffer_transition_controller.rs:337-358 | the chosen level for every pattern of the override, override-to-zero, force-zero, pending and floor bits of the flags word |
| `LevelModel.PreparedWords` | src/app/buffer_refill_request.rs:74-82 | which one word each operation writes before the controller is entered, and what |
| `LevelModel.DecrementApplies` | src/app/buffer_refill_request.rs:174-188 | a zero level is answered zero without a call; any other is one call with one level less |
| `LevelModel.FloorStep` | src/app/buffer_transition_controller.rs:337-358 | a floor request as a whole, unblocked and with quiet callees: gate, dispatch, history, one equal-wait, and a level word of exactly the floor |
| `LevelModel.UpdateFlagsBits` | src/app/buffer_refill_request.rs:144-154 | an update moves the masked bits and no others; clearing undoes setting if and only if none was set before |
| `LevelModel.TransitionShape` | src/app/buffer_transition_controller.rs:325-362 | every entry makes exactly one wait, last; an equal-wait only after gate, dispatch and history; an unblocked controller is required for any of them |
| `LevelModel.InhibitedDrains` | src/app/buffer_transition_controller.rs:325-362 | an inhibiting flag, the inhibit word or the inhibit byte makes an entry one drain wait and nothing else; the gate is called exactly when all are clear |
| `LevelModel.AnswersDecide` | src/app/buffer_transition_controller.rs:331-361 | past that, a nonzero gate or history answer ends in a drain at once, and two zeros in a wait for the level chosen from the reloaded words |
| `LevelModel.RaiseInhibits` | src/app/buffer_transition_controller.rs:390-397 | after a raise of a positive word no gate, dispatch or history call occurs over any run, if no callee clears the word |
| `LevelModel.RunRaisesInhibit` | src/app/buffer_transition_controller.rs:390-397 | over any run the inhibit word is the maximum of its start and every raise |
| `LevelModel.HighestIsMaximum` | src/app/buffer_transition_controller.rs:390-397 | that maximum bounds every raise and is one of the values |
| `LevelModel.RunStaysBlocked` | src/app/buffer_transition_controller.rs:325-333 | once blocked, no operation calls gate, dispatch or history, and each entry makes exactly one drain wait |
| `LevelModel.NextLevelWraps` | src/app/buffer_refill_request.rs:74-82 | 3 is held and every other level steps by one, wrapping |
| `LevelModel.RunAdvances` | src/app/buffer_refill_request.rs:74-82 | a run of advances moves the level word by the closed step, and every level waited for is within max(base, floor) |
| `LevelModel.ClosedForm` | src/app/buffer_transition_controller.rs:337-348 | from at most 3, after k advances the level is max(min(base, 3, level+k), floor) |
| `LevelModel.ThreeAdvancesSuffice` | src/app/buffer_transition_controller.rs:337-348 | three advances reach min(3, max(base, floor)) and later ones stay |
| `LevelModel.ClimbsToBase` | src/app/buffer_transition_controller.rs:337-348 | from above 3 with a high base the level climbs to the base and stays |
| `LevelModel.ClimbsOver` | src/app/buffer_transition_controller.rs:337-348 | at the top of the word it wraps to the floor and goes on to 3 |
| `LevelModel.ConvergesExactlyWhen` | src/app/buffer_transition_controller.rs:337-348 | for all levels, bases and floors, exactly when advances have reached the target |
| `LevelModel.DecrementsReachZero` | src/app/buffer_refill_request.rs:174-188 | with an apply callee that publishes the level it is given, k decrements lower the level by k down to zero, with one apply per step |
| `LevelModel.DecrementsReachZeroExactlyWhen` | src/app/buffer_refill_request.rs:174-188 | and they do so from every state if and only if the callee publishes it |
| `LevelController.Controller.Transition` | src/app/buffer_transition_controller.rs:325-362 | the in-place controller, reloading its words after the callees, reaches the modelled state and answer |
| `LevelController.Controller.RaiseInhibit` | src/app/buffer_transition_controller.rs:390-397 | the in-place raise reaches the modelled state and answer |
| `LevelController.Controller.RequestFloor` | src/app/buffer_transition_controller.rs:414-419 | the in-place floor request reaches the modelled state and answer |
| `LevelController.Controller.AdvanceLevel` | src/app/buffer_refill_request.rs:74-84 | the ARM form in place: level word read, requested word written, controller entered |
| `LevelController.Controller.UpdateRequestFlags` | src/app/buffer_refill_request.rs:144-154 | the read-modify-write reaches the modelled flags and nothing else |
| `LevelController.Controller.DecrementLevel` | src/app/buffer_refill_request.rs:174-188 | zero answers zero without a call, any other level is applied less one |
| `AudioRing.Release` | src/app/audio_buffer_ring_release.rs:19-31 | the in-place release, with its reload of the index after the length store |
| `AudioRing.OneReleaseBringsIndexIn` | src/app/audio_buffer_ring_release.rs:25-29 | whatever the ring held, after one release the index is at most the last index |
| `AudioRing.ReleaseEffect` | src/app/audio_buffer_ring_release.rs:19-31 | what a release writes in any ring, sound or not: the length at its wrapped byte offset, the stepped index, and no other word |
| `AudioRing.SoundStep` | src/app/audio_buffer_ring_release.rs:19-31 | below record 64 a release clears one length, steps the index modulo the ring size, and touches no other word |
| `AudioRing.Rotation` | src/app/audio_buffer_ring_release.rs:19-31 | after k releases: the index rotated by k, exactly the passed lengths zero, every other word unchanged |
| `AudioRing.FullTurn` | src/app/audio_buffer_ring_release.rs:19-31 | one release per record zeroes every length and returns to the start |
| `AudioRing.RecordSixtyFourIsControl` | src/app/audio_buffer_ring_release.rs:22-23 | record 64's length is the last-index word: releasing it, which memory always has room for, leaves a ring of one record at index 0 |
| `AudioRing.ControlsSparedExactlyWhen` | src/app/audio_buffer_ring_release.rs:22-23 | the records, of all a word can number, whose length is a control word: the last-index word for 64 and the index word for 357914005, each modulo 2^30 |
| `AudioRing.ReleaseSparesExactlyWhen` | src/app/audio_buffer_ring_release.rs:19-31 | a release in any ring keeps the last index, and steps the index as it should, if and only if its record is not one of those or the ring has one record |
| `AudioRing.UpToSixtyFour` | src/app/audio_buffer_ring_release.rs:19-31 | in a ring of more than 64 records, releases before record 64 keep the last index |
| `AudioRing.SixtyFourthRelease` | src/app/audio_buffer_ring_release.rs:19-31 | and the next one writes zero over it |
| `AudioRing.RotatesExactlyWhen` | src/app/audio_buffer_ring_release.rs:19-31 | from any in-range index, releases rotate for ever if and only if the last index is at most 63 |
| `AudioRing.RunRotates` | src/app/audio_buffer_ring_release.rs:19-31 | over any mix of releases, acquires and fills the index has rotated by the number of releases |
| `AudioRing.Acquire` | src/app/audio_buffer_ring_acquire.rs:22-45 | the in-place peek, the output anywhere in the same memory, with the source's store and reload order and with whatever others do between the unlock and the reload |
| `AudioRing.AcquirePeeks` | src/app/audio_buffer_ring_acquire.rs:22-45 | with the output apart and nobody else running nothing else changes, the record is accepted while draining or with a length of 0x80000 and refused otherwise, and the call is repeatable |
| `AudioRing.AcquireIntoIndex` | src/app/audio_buffer_ring_acquire.rs:22-45 | with the index word as output and nobody else running, record 0 is judged and the copied address selects the length answered |
| `AudioRing.AnswerBelongsExactlyWhen` | src/app/audio_buffer_ring_acquire.rs:40-44 | an accepted acquire answers the length of the record whose address it copied if and only if the releases after its unlock are a multiple of the ring size |
| `AudioRing.GapAnswersNextRecord` | src/app/audio_buffer_ring_acquire.rs:40-44 | one release there, and it answers the next record's length beside this record's address |
| `AudioRing.RunStaysSpent` | src/app/audio_buffer_ring_acquire.rs:31-37 | over any run a released record stays below full until the producer fills it |
| `AudioRing.ReleasedIsNotAcquired` | src/app/audio_buffer_ring_acquire.rs:31-37 | so it is not handed out while not draining, however the ring turns |
| `BoundedPosition.Update` | src/app/bounded_position_update.rs:21-60 | the in-place update, difference written last to any word of the state, rejections touching nothing |
| `BoundedPosition.AcceptedLandsInRange` | src/app/bounded_position_update.rs:21-60 | with a positive bound every accepted update lands in range, from anywhere |
| `BoundedPosition.RejectedExactlyWhen` | src/app/bounded_position_update.rs:28-48 | an absolute update is rejected exactly for a negative request, a relative one exactly from a negative position |
| `BoundedPosition.ZeroBoundIsNone` | src/app/bounded_position_update.rs:31-58 | with a bound of zero an absolute request is taken as it is with difference 0, and a relative sum is not clamped above |
| `BoundedPosition.NegativeBoundLands` | src/app/bounded_position_update.rs:31-58 | with a negative bound accepted updates land below it, or on 0 where the sum turns negative |
| `BoundedPosition.RelativeIsClampExactlyWhen` | src/app/bounded_position_update.rs:42-56 | a relative update is the exact clamp if and only if the sum fits a signed word (or the bound is one); otherwise it lands on 0 |
| `BoundedPosition.LargestStepLandsOnZero` | src/app/bounded_position_update.rs:42-56 | one such update: from 1 of 10 the largest step lands on 0, where the clamp is 9 |
| `BoundedPosition.AbsoluteReportsDisplacement` | src/app/bounded_position_update.rs:27-41 | an absolute update from a nonnegative position reports its true displacement |
| `BoundedPosition.DifferenceOf` | src/app/bounded_position_update.rs:21-60 | nothing is reported for a relative update, from a negative position or without a bound; otherwise the wrapping displacement |
| `BoundedPosition.RunDifferencesSum` | src/app/bounded_position_update.rs:21-60 | over any run the reported differences and the silent relative moves sum to final minus initial; absolute runs report all of it |
| `BoundedPosition.NegativeStartReportsLess` | src/app/bounded_position_update.rs:36-38 | from a negative start the reports of an absolute run, rejected updates included, fall short by exactly the first accepted move |
| `ScreenPosition.Screen.UpdatePosition` | src/app/app_screen_update_position.rs:64-93 | the in-place update: one message or silence, cached word and result |
| `ScreenPosition.LandsExactlyWhen` | src/app/app_screen_update_position.rs:68-92 | a receiver lands on the request if and only if it got an absolute position or was at the cached one |
| `ScreenPosition.SendsExactlyWhen` | src/app/app_screen_update_position.rs:68-92 | a step exactly when active is cached, the handle is not null, its limit exceeds cached and the request is elsewhere; silence when it is not elsewhere; the position otherwise |
| `ScreenPosition.ReporterLands` | src/app/app_screen_update_position.rs:68-92 | a receiver that is where the screen reports it lands on the request, for every cached word, handle and limit, silence included |
| `ScreenPosition.RunFollows` | src/app/app_screen_update_position.rs:64-93 | over any run with drift, the receiver is where it was last told to be and the cached word is the last request |
| `ScreenPosition.RunAgrees` | src/app/app_screen_update_position.rs:64-93 | receiver and cached word agree if and only if the last place told is the last request, so in every run that ends in an update, and in every run without drift that starts agreeing |
| `Association.Receiver.Replace` | src/app/associated_object_replace.rs:52-66 | the in-place replacement, with notices that may rewrite every stored association, redirect the receiver and replace within; the store goes to the state selected after the removal notice |
| `Association.CallBalance` | src/app/associated_object_replace.rs:52-66 | what one call logs for every object: its own added minus removed notices, and those of replacements made within its notices |
| `Association.ReplaceEffect` | src/app/associated_object_replace.rs:52-66 | notices, store and what is left of every state, for each combination of answer and replacement |
| `Association.InStepExactlyWhen` | src/app/associated_object_replace.rs:52-66 | for each object and all callees, the notices keep step with the association if and only if what the callees are out by is what the answer differs from the association the store overwrites |
| `Association.QuietInStepExactlyWhen` | src/app/associated_object_replace.rs:52-66 | with notices that make no replacement: if and only if the query answered the replacement, or told the truth and the addition notice leaves the replacement where the receiver looks |
| `Association.NestedInStepExactlyWhen` | src/app/associated_object_replace.rs:52-66 | with notices whose own replacements keep step: if and only if the query answered the replacement or what the store overwrites |
| `Association.CallingKeepsStep` | src/app/associated_object_replace.rs:52-66 | replacements made within a notice keep step, to any depth, if each of them settles |
| `Association.NestedReplacementIsLost` | src/app/associated_object_replace.rs:59-62 | one truthful replacement within a removal notice is overwritten with no removal given |
| `Association.RunBalances` | src/app/associated_object_replace.rs:52-66 | over any run, for each object, added minus removed is 1 for the current association and 0 otherwise, relative to the start, after every call if and only if every call settles |
| `Association.TruthfulRunSettles` | src/app/associated_object_replace.rs:52-66 | a truthful run whose notices replace nothing, whatever removals rewrite and wherever they redirect, settles throughout and ends with the last replacement associated |
| `Association.RunOrders` | src/app/associated_object_replace.rs:59-65 | over a truthful run whose removal notices replace nothing themselves, every removal is given while its object is stored and is followed at once by the store; every addition follows the store of its object |
| `BankedSlots.OffsetIsLinear` | src/app/banked_slot_close.rs:33 | a slot offset is the slot size times 16*bank+index, wrapped |
| `BankedSlots.SlotsTile` | src/app/banked_slot_close.rs:33 | without wrap a byte lies in a slot if and only if it is the slot of its own bank and index |
| `BankedSlots.AliasExactlyWhen` | src/app/banked_slot_close.rs:33 | two slots share an address if and only if indices are equal and banks agree in the low 24 bits |
| `BankedSlots.SlotTable.Close` | src/app/banked_slot_close.rs:28-45 | the in-place close with callees that may write the table |
| `BankedSlots.CloseEffect` | src/app/banked_slot_close.rs:28-45 | the slot ends empty, exactly the object present after finalization is released, and no other word changes but by the callees |
| `BankedSlots.KindDecides` | src/app/banked_slot_close.rs:33-40 | the byte eight on from the slot, at the wrapped slot offset, makes the finalizer run for 1 and 2 and for nothing else |
| `BankedSlots.CloseRejects` | src/app/banked_slot_close.rs:32 | an index of 16 or more answers 13 and does nothing |
| `BankedSlots.RunStaysEmpty` | src/app/banked_slot_close.rs:28-45 | over any run an empty slot word stays empty until refilled |
| `BankedSlots.ClosedStaysClosed` | src/app/banked_slot_close.rs:32-35 | once closed, every later close of the slot or an alias answers 13 and touches nothing until a refill |
| `SystemInfo.ResourceClassifiersAgree` | src/sysinfo.rs:302-335 | the two context classifiers agree, and a nonzero class names its board code |
| `SystemInfo.CodesOf` | src/sysinfo.rs:302-335 | for every board code, its resource class, whether it is a resource board, and its storage status |
| `SystemInfo.GenerationOneExactlyWhen` | src/sysinfo.rs:541-548 | generation 1 is exactly the version words 0x130010 to 0x1300ff |
| `SystemInfo.GenerationOneBoards` | src/sysinfo.rs:487-550 | how generation, class and storage status of one word relate, and what the unknown word classifies as |
| `SystemInfo.PinStatusExactlyWhen` | src/sysinfo.rs:487-493 | the storage status is the promised 2 or 3 if and only if the board asks the pin and the pin read succeeds |
| `SystemInfo.FailedPinReadAnswersZero` | src/drivers/storage_backend_pin_89_status.rs:15-17 | a failed pin read on such a board answers 0 |
| `SystemInfo.SystemInfoCache.GetBoardVersion` | src/sysinfo.rs:170-180 | the cached read in place |
| `SystemInfo.SystemInfoCache.GetCopyEnd` | src/sysinfo.rs:267-280 | the cached read in place |
| `SystemInfo.SystemInfoCache.GetGeneration` | src/sysinfo.rs:534-550 | two reads through the version cache, then one store of the byte |
| `SystemInfo.SystemInfoCache.GetStorageStatus` | src/sysinfo.rs:487-493 | classification of the cached version with the pin read on demand |
| `SystemInfo.StepEffect` | src/sysinfo.rs:170-180 | a cached word is written only while it is its sentinel, with that word of the context; the generation byte from the high half of the first read and the low half of the second |
| `SystemInfo.AnswerEffect` | src/sysinfo.rs:487-493 | each accessor answers from the words it leaves |
| `SystemInfo.RunFindsVersion` | src/sysinfo.rs:170-180 | over any run the version is the first word found that is not the sentinel, unknown before and the same for ever after |
| `SystemInfo.RunFindsEnd` | src/sysinfo.rs:267-280 | likewise the copy end |
| `SystemInfo.RunKeepsGeneration` | src/sysinfo.rs:534-540 | a known generation never changes |
| `SystemInfo.GenerationAgreesExactlyWhen` | src/sysinfo.rs:534-550 | the generation answered agrees with classifying the final version, whatever calls follow, if and only if the version was known after the call's first read, or known after its second as generation 2 |
| `SystemInfo.GenerationAnswerStands` | src/sysinfo.rs:534-550 | every later call answers what the first one did |
| `SystemInfo.EarlyGenerationIsWrong` | src/sysinfo.rs:541-548 | a board that appears between the two reads is cached as generation 2 for good |
| `SystemInfo.StorageFollowsVersion` | src/sysinfo.rs:487-493 | once known, the version and the pin alone decide the status; before, it is 0 |

## Left out

- Mutexes, IRQ and FIQ masking, volatile ordering as such, and ABI details: each operation is one step, in the order of its own loads and stores; the one gap modelled is that of the audio acquire after its unlock.
- The deleting-destructor cascade on the last release: a drained object is logged, and its own slots are not released in turn.
- What a write past the wheel's table does to the memory there: `Insertable` keeps operations within it, and LowRuns.dfy says exactly when they are.
- Initialising an object that is already on the wheel: `animation_init` and `animation_default_init` are modelled on fresh storage, which their callers provide.
- Animations.AnimationDestroy: the first store of the derived vtable, overwritten before anything can read it.
- The reader's `position` word, which the refill does not touch, and sources that deliver more than they were asked for.
- BufferedReader.EofMeansDelivered: only for sources that never answer a request with nothing while they have bytes; the source itself latches EOF on such an answer.
- The block-flush helper's writes to stream fields other than the buffer owner, and its `written` result, which the flush discards.
- LevelModel.RunStaysBlocked: flag updates that clear an inhibiting bit are excluded, since they may lift the block.
- Association.RunOrders: removal notices that replace within, whose own notices come between theirs and the store.
- Termination of the level waits: a wait is a step that returns with the level word at its target.
- The host stub of the level advance, which keeps one word where the target has two.
- ScreenPosition.Screen.UpdatePosition: how the mode-selected backends apply a position is not part of this model; the receiver reads mode 0 as a wrapping step and mode 1 as a position.
- BankedSlots.SlotsTile: offsets that wrap; for those only exact aliasing is characterised, by `AliasExactlyWhen`.
- Leaf getters, setters and initialisers, fixed dispatch sequences, the resampler and the audio pair selection: one-branch facts, traces, or opaque tables.

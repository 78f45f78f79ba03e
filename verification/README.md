# Persistent-memory sort, libpmem and kvstore-perf cores of MCAS

This project models three parts of the MCAS repository and proves what they are for.

- **The persistent-memory sort plugin** (`examples/personalities/cpp_pm_sort`). N = 2^k chunks of records are
  quicksorted, merged pairwise in k phases and split again, in RAM (task 1), in RAM with a backup of each
  phase (task 2), or in persistent memory with one superblock update per chunk (task 3).
- **The generic copy and set of libpmem** (`src/lib/libpmem`), when their result is durable, and the
  once-only initialisation behind `pmem_is_pmem`.
- **The arithmetic and parsing of kvstore-perf** (`src/apps/kvstore-perf`): running and binned statistics, the
  layout of device-DAX mappings, and the reader of core and device lists.

Code that works in place is modelled in place: arrays for record buffers and memory, classes for the RAM map,
the superblock pair, the memory behind a cache and the statistics objects. The crash-recoverable tasks and the
threads of the initialisation are state machines in which power may fail, or another thread may move, between
any two steps.

| file | what it models |
|---|---|
| Slices | a fact about sequences |
| Records, Sorting | records, their order, quicksort, merge |
| KeyNames, Tiers, Pool | chunk names, the generations of chunks, what a pool may hold |
| ChunkBytes | chunks as bytes: the split copies and `verify` |
| Task1, Task2, Task3 | the three sorts |
| Task3Windows | task 3 resumed from any pool: when it throws, what a crash in its two windows leads to |
| Task3Runs | task 3 over all runs: what a test before a resumption can tell, and what no test can |
| Slots | the two superblock slots, field by field, through a cache |
| Task2Slots, Task3Slots | tasks 2 and 3 over the slots |
| PmemModel, MemOps, Pmem | memory with stores, flushes and drains; memmove and memset; the public operations |
| Once | initialisation by compare-and-swap, any number of threads |
| Statistics, DaxLayout, RangeList | the kvstore-perf cores |
| RangeGrammar | which texts are lists, and of what |

## Opening and creating keys

The interface describes `cb_create_key` as making a new pair, with an error if there is one, and `cb_open_key` as
opening an existing pair, the length being a result (`src/components/api/ado_itf.h:444-494`). The code behind these
callbacks does otherwise (`src/server/ado/src/ado.cpp:284-297`, `src/server/mcas/src/shard_ado.cpp:918-992`,
`src/components/store/hstore/src/session.tcc:416-466`), and the model follows the code:

- the length passed to `cb_open_key` decides. A missing key fails with length 0; with another length it is created,
  with whatever its memory held;
- the plugin passes 0 only where its size variable is fresh: the first open of `sort_chunks`, `load_from_PM` and
  `verify`, and the first of a recovery. The opens of `merge` and `split_result` pass the size of a chunk;
- `cb_create_key` opens a key that exists, and what follows overwrites it.

## Where the code falls short of its promise

Each point is proved below with a concrete run or input and with the exact condition under which the promise holds.

- `update_superblock` stores to slot k but persists slot 0 each time (lines 67, 74 and 76). It is atomic exactly
  when the cache lines of slot 0 contain slot 1 (`Slots.AsWrittenAtomicIff`). With the persists the header
  describes it is always atomic under one crash, whatever the clock returns (`Slots.IntendedIsAtomic`).
- Recovery does not repair the other slot, so a second crash can leave no valid slot, and the callers then use a
  null pointer, or can undo an update (`Slots.TwoCrashesLoseBoth`, `Slots.TwoCrashesUndoUpdate`). It is safe exactly
  when the first crash left slot 1 valid and current (`Slots.SecondCrashAtomicIff`).
- Recovery of task 3 stores MERGE where it means the quicksort phase (line 661). After a crash in this window every
  resumption that is left alone ends with an idle superblock, and for every record one may end with nothing but this
  record in the output (`Task3Windows.OddWindowMayEnd`). The chunks with the true records stay in the pool
  (`Task3Windows.OddWindowRuns`).
- The merged chunk is erased before IDLE is stored (lines 605 to 791). After a crash in this window a resumption
  ends idle as well, with any records in the last output and all other outputs as they were
  (`Task3Windows.LastWindowEndsIff`, `Task3Windows.LastWindowRuns`).
- Testing the superblock and one or two keys before each resumption is exact: nothing is resumed that is not sure to
  end with the sorted output (`Task3Runs.GuardedIsExact`). Made for the first time on whatever earlier resumptions
  left, the test is still sound, as long as nothing was resumed whose input or merged chunk was missing
  (`Task3Runs.PassedIsInevitable`). After such a resumption no test of superblock and keys can tell
  (`Task3Runs.LostIsUnseen`, `Task3Runs.AgainIsUnseen`).
- Resuming task 2 or task 3 after the superblock went idle throws, because the input is gone
  (`Task2.RecoversIffUnfinished`, `Task3Runs.RecoversIff`). In task 3 this also overwrites the superblock.
- `verify` and `load_from_PM` notice only that the first chunk is missing. Others are made up
  (`ChunkBytes.Verify`, `Task1.LoadFromPM`).
- The key arrays of task 2 hold 2N + 1 names, one too few for N = 2 (`Task2.KeyArraysFit`).
- `round_up_to_pow2` returns 0 above 2^63 (`DaxLayout.RoundUpToPow2`), and the last 32-bit device number counts as
  none, so that devices of different nodes may get the same address (`DaxLayout.SafeUpToIff`).
- A list item that covers all 32-bit numbers is read as nothing (`RangeList.RoundTrip`).
- The comment in `sort_task2` says that the pool holds only the loaded level when recovery loads it. In the split
  phase older levels may still be there; the code loads the right level all the same (`Task2.StepKeeps`).

## Model

| member | source | states |
|---|---|---|
| Records.IsSmaller | examples/personalities/cpp_pm_sort/src/cpp_pm_sort_plugin.cpp:92-107 | the pointer-advancing loop returns true if and only if, at some place in the first ten bytes with equal bytes before it, the first record has the smaller byte; that is the order of the keys read as big-endian numbers |
| Records.BigEndianIsLexicographic | examples/personalities/cpp_pm_sort/src/cpp_pm_sort_plugin.cpp:92-107 | comparing byte strings and comparing the numbers they denote agree, both for less and for equal |
| Records.AdjacentIsSorted | examples/personalities/cpp_pm_sort/src/cpp_pm_sort_plugin.cpp:249-255 | a sequence is sorted if and only if every neighbouring pair is in order, which is all `verify` looks at |
| Records.SortedMeans | examples/personalities/cpp_pm_sort/src/cpp_pm_sort_plugin.cpp:92-107 | a sequence is sorted if and only if no record has smaller first ten bytes than one before it |
| Sorting.Swap | examples/personalities/cpp_pm_sort/src/cpp_pm_sort_plugin.cpp:80-90 | exactly the two records change places; nothing else moves |
| Sorting.GetPivot | examples/personalities/cpp_pm_sort/src/cpp_pm_sort_plugin.cpp:123-130 | the index is one of start, middle, end, and its key is the median of the three keys |
| Sorting.Partition | examples/personalities/cpp_pm_sort/src/cpp_pm_sort_plugin.cpp:134-155 | afterwards everything before the returned index is smaller than the pivot, everything after it is not; the range is rearranged, the rest untouched |
| Sorting.Quicksort | examples/personalities/cpp_pm_sort/src/cpp_pm_sort_plugin.cpp:157-170 | terminates; the range is sorted by key, holds the same multiset of whole records, and nothing outside it changes |
| Sorting.ChunkMerge | examples/personalities/cpp_pm_sort/src/cpp_pm_sort_plugin.cpp:277-313 | the destination array ends up as the merge of the two source arrays, whose bounds are never left; of equal keys the second source goes first, so the merge is not stable |
| Sorting.MergeHolds | examples/personalities/cpp_pm_sort/src/cpp_pm_sort_plugin.cpp:277-313 | merging keeps the multiset of records, for any two sequences |
| Sorting.MergeSorts | examples/personalities/cpp_pm_sort/src/cpp_pm_sort_plugin.cpp:277-313 | merging two sorted sequences gives a sorted one |
| KeyNames.NameInjective | examples/personalities/cpp_pm_sort/src/cpp_pm_sort_plugin.cpp:416-470 | different chunk keys (level, index, sorted) have different names |
| KeyNames.ContainsLevel | examples/personalities/cpp_pm_sort/src/cpp_pm_sort_plugin.cpp:1059-1063 | the substring test finds exactly the levels whose decimal form begins with the wanted one |
| KeyNames.LevelsTenAndOneConfused | examples/personalities/cpp_pm_sort/src/cpp_pm_sort_plugin.cpp:1059-1063 | the substring test alone does take level 10 for level 1 |
| KeyNames.ShouldEraseExactly | examples/personalities/cpp_pm_sort/src/cpp_pm_sort_plugin.cpp:1059-1063 | among levels less than nine apart the test of `stabilize_PM` erases exactly the other levels and the wrong kind, never the superblock |
| KeyNames.SuperblockStays | examples/personalities/cpp_pm_sort/src/cpp_pm_sort_plugin.cpp:1059-1063 | whatever level is asked for, the superblock key is never erased, and no chunk has its name |
| Tiers.GetFinalMergePhase | examples/personalities/cpp_pm_sort/src/cpp_pm_sort_plugin.cpp:267-275 | for any N >= 1 the halving loop returns the binary logarithm, rounded down; 0 for N = 0 |
| Tiers.LogarithmExact | examples/personalities/cpp_pm_sort/src/cpp_pm_sort_plugin.cpp:267-275 | on N = 2^p that is exactly p, the number of phases |
| Tiers.EraseSelectsOtherTiers | examples/personalities/cpp_pm_sort/src/cpp_pm_sort_plugin.cpp:1029-1073 | of the generations that can coexist, exactly the unwanted ones are erased |
| Tiers.GoodMerge | examples/personalities/cpp_pm_sort/src/cpp_pm_sort_plugin.cpp:372-528 | merging neighbours 2i and 2i+1 of a level gives chunk i of the next: sorted, and exactly the input records of both |
| Tiers.GoodTop | examples/personalities/cpp_pm_sort/src/cpp_pm_sort_plugin.cpp:372-528 | the single chunk of the last level is all input records, sorted |
| Tiers.SplitIsWhole | examples/personalities/cpp_pm_sort/src/cpp_pm_sort_plugin.cpp:530-615 | the output chunks in order are the whole input, sorted; nothing is lost or repeated at the cuts |
| Pool.OutputOrder | examples/personalities/cpp_pm_sort/src/cpp_pm_sort_plugin.cpp:223-265 | in every sorted output no record has smaller first ten bytes than one before it, in its own chunk or an earlier one |
| ChunkBytes.SplitCopies | examples/personalities/cpp_pm_sort/src/cpp_pm_sort_plugin.cpp:594 | each output is filled with a whole chunk of bytes starting at record i*R; the copy stays inside the merged chunk and its first R records are the right slice |
| ChunkBytes.RecordBytes | examples/personalities/cpp_pm_sort/src/cpp_pm_sort_plugin.h:32-42 | the records of a chunk, written one after the other, are its bytes, a hundred each |
| ChunkBytes.FlattenIndex | examples/personalities/cpp_pm_sort/src/cpp_pm_sort_plugin.cpp:220-221 | quotient and remainder index the concatenation of the chunks |
| ChunkBytes.Verify | examples/personalities/cpp_pm_sort/src/cpp_pm_sort_plugin.cpp:223-265 | fails exactly when the first output is missing or one that exists has the wrong size; other missing outputs are created; otherwise returns true if and only if, for every i, the ten bytes stored at 100 * ((i + 1) % R) in output (i + 1) / R are not below those at 100 * (i % R) in output i / R, which is that the concatenated outputs, as they are now, are sorted |
| ChunkBytes.SortedOutputVerifies | examples/personalities/cpp_pm_sort/src/cpp_pm_sort_plugin.cpp:223-265 | a pool that holds the result of a sort passes `verify` |
| Task1.Ram.Rename | examples/personalities/cpp_pm_sort/src/cpp_pm_sort_plugin.cpp:213-216 | the buffer keeps its identity and content under the new key, and no buffer is leaked or shared |
| Task1.CreateSortedChunk | examples/personalities/cpp_pm_sort/src/cpp_pm_sort_plugin.cpp:172-218 | the buffer is sorted in place and filed under the sorted name; every other entry is unchanged |
| Task1.MergePair | examples/personalities/cpp_pm_sort/src/cpp_pm_sort_plugin.cpp:416-520 | the new buffer holds the merge of the pair, both sources are freed once and leave the map |
| Task1.SortChunks | examples/personalities/cpp_pm_sort/src/cpp_pm_sort_plugin.cpp:325-370 | every input chunk of the map becomes its sorted copy |
| Task1.MergeChunks | examples/personalities/cpp_pm_sort/src/cpp_pm_sort_plugin.cpp:372-528 | all phases leave one buffer: every input record, sorted |
| Task1.SplitResult | examples/personalities/cpp_pm_sort/src/cpp_pm_sort_plugin.cpp:530-615 | the map ends with exactly the output chunks as slices of the merged buffer, which is freed |
| Task1.BackupToPM | examples/personalities/cpp_pm_sort/src/cpp_pm_sort_plugin.cpp:1075-1112 | the pool becomes exactly itself overwritten by the map, whatever its keys held before |
| Task1.FreeMap | examples/personalities/cpp_pm_sort/src/cpp_pm_sort_plugin.cpp:984-998 | every remaining buffer is freed once and the map is empty |
| Task1.LoadFromPM | examples/personalities/cpp_pm_sort/src/cpp_pm_sort_plugin.cpp:930-981 | for every level up to the last, and -1 for the sorted L0 chunks: fails, changing nothing, if and only if the first chunk is missing; otherwise other missing chunks are created and the map holds copies of exactly the wanted chunks in new buffers |
| Task1.SuppliedLoads | examples/personalities/cpp_pm_sort/src/cpp_pm_sort_plugin.cpp:930-981 | that is the step task 2 takes for loading |
| Task1.SortTask1 | examples/personalities/cpp_pm_sort/src/cpp_pm_sort_plugin.cpp:1000-1027 | from any pool: fails, changing nothing, if and only if the first input chunk is missing; otherwise the output keys hold the sorted input, whatever they held before, missing inputs have been created, all else is untouched and no buffer stays allocated |
| Task2.StepKeeps | examples/personalities/cpp_pm_sort/src/cpp_pm_sort_plugin.cpp:1154-1251 | every step of the task and every crash keeps the invariant: the superblock alone tells which complete backup the pool holds |
| Task2.CrashSafety | examples/personalities/cpp_pm_sort/src/cpp_pm_sort_plugin.cpp:1154-1251 | over every run with any number of crashes: an idle superblock means the untouched input or the sorted output; a completed task leaves exactly the output keys; an exception is raised only over a finished output |
| Task2.UninterruptedFinishes | examples/personalities/cpp_pm_sort/src/cpp_pm_sort_plugin.cpp:1154-1251 | from every reachable state in which the sort has neither ended in an exception nor been asked for again after its end, every continuation without a crash is finite and ends with the sorted output |
| Task2.RecoversIffUnfinished | examples/personalities/cpp_pm_sort/src/cpp_pm_sort_plugin.cpp:1172-1216 | resuming after a crash completes the sort if and only if the superblock is not idle or the input is still there; otherwise loading throws |
| Task2Slots.RunRefines | examples/personalities/cpp_pm_sort/src/cpp_pm_sort_plugin.cpp:1154-1251 | every run over the two slots, in which each interrupted update began with slot 1 valid and current, is a run of the same task with an atomic superblock: same pool, RAM, position and reading |
| Task2Slots.SlotCrashSafety | examples/personalities/cpp_pm_sort/src/cpp_pm_sort_plugin.cpp:1154-1251 | so crash safety holds over the slots as well |
| Task2.KeyBound | examples/personalities/cpp_pm_sort/src/cpp_pm_sort_plugin.cpp:1033 | at most 2N chunk keys ever coexist when N >= 4, and 2N + 1 when N = 2 |
| Task2.ManyKeys | examples/personalities/cpp_pm_sort/src/cpp_pm_sort_plugin.cpp:1033 | a run whose final `stabilize_PM` meets N + 3 chunk keys |
| Task2.KeyArraysFit | examples/personalities/cpp_pm_sort/src/cpp_pm_sort_plugin.cpp:1033 | the arrays of 2N + 1 keys suffice for every run if and only if N >= 4 (the README of the plugin also allows N = 2) |
| Task3.NextKeeps | examples/personalities/cpp_pm_sort/src/cpp_pm_sort_plugin.cpp:617-793 | every step keeps the invariant: outside two windows the superblock tells where every record is |
| Task3.Custody | examples/personalities/cpp_pm_sort/src/cpp_pm_sort_plugin.cpp:617-793 | in every durable state the chunks that recovery relies on hold each input record exactly once |
| Task3.CustodyOverRuns | examples/personalities/cpp_pm_sort/src/cpp_pm_sort_plugin.cpp:617-793 | the same over all runs whose crashes avoid the windows; such runs never throw, and when they end the output is sorted and the superblock idle |
| Task3.UninterruptedFinishes | examples/personalities/cpp_pm_sort/src/cpp_pm_sort_plugin.cpp:617-793 | outside the windows, every continuation without a crash is finite and ends with the sorted output |
| Task3.NextAdvances | examples/personalities/cpp_pm_sort/src/cpp_pm_sort_plugin.cpp:617-793 | from any pool whatsoever a step brings the end nearer, so no resumption runs forever |
| Task3Windows.OutcomeOfResumption | examples/personalities/cpp_pm_sort/src/cpp_pm_sort_plugin.cpp:617-793 | whatever the pool holds, every resumption that is left alone ends: in an exception if and only if the first input chunk it would open is missing, else with an idle superblock |
| Task3Windows.OddWindowMayEnd | examples/personalities/cpp_pm_sort/src/cpp_pm_sort_plugin.cpp:655-668 | after a crash while recovery has stored MERGE during the quicksort phase, whatever phase the superblock held: every resumption ends idle, and for every record one may end with nothing but this record in the output |
| Task3Windows.OddWindowRuns | examples/personalities/cpp_pm_sort/src/cpp_pm_sort_plugin.cpp:655-668 | over every run from there, crashed and resumed anywhere but not started anew: no exception, and every chunk that was in the pool stays as it was |
| Task3Windows.LastWindowEndsIff | examples/personalities/cpp_pm_sort/src/cpp_pm_sort_plugin.cpp:598-612 | after a crash between erasing the merged chunk and storing IDLE: every resumption ends idle, and it may end over a pool if and only if this is the old one with any other records in the last output |
| Task3Windows.ReplacedRightIff | examples/personalities/cpp_pm_sort/src/cpp_pm_sort_plugin.cpp:598-612 | such an end is right if and only if the last output got a sorted rearrangement of its own records |
| Task3Windows.LastWindowRuns | examples/personalities/cpp_pm_sort/src/cpp_pm_sort_plugin.cpp:598-793 | over every run from there, crashed and resumed anywhere but not started anew: no exception, nothing but the last output and the merged chunk ever changes, and an idle superblock means that only the last output has |
| Task3Runs.RecoversIff | examples/personalities/cpp_pm_sort/src/cpp_pm_sort_plugin.cpp:617-793 | over runs whose crashes avoid the windows, and one more crash anywhere: resuming is sure to complete the sort if and only if a test of the superblock and of the presence of one or two keys passes; otherwise it throws, if the sort was over, or may end over a wrong output |
| Task3Runs.OutcomeOverRuns | examples/personalities/cpp_pm_sort/src/cpp_pm_sort_plugin.cpp:617-793 | in every run, with crashes and resumptions anywhere, the next resumption ends, and one or two input keys decide how |
| Task3Runs.PassedIsInevitable | examples/personalities/cpp_pm_sort/src/cpp_pm_sort_plugin.cpp:617-793 | over every run, crashes in the windows and repeated resumptions included: whatever passes the test is completed by the next resumption, as long as nothing was resumed whose input or merged chunk was missing; even after that outside the split stage, if the fresh superblock held no phase beyond the last |
| Task3Runs.GuardedIsExact | examples/personalities/cpp_pm_sort/src/cpp_pm_sort_plugin.cpp:617-793 | with the test made before every resumption and power failing anywhere: no exception is ever raised, an end is a sorted output, and the test is exact |
| Task3Runs.OddWindowRun | examples/personalities/cpp_pm_sort/src/cpp_pm_sort_plugin.cpp:661 | a run with one crash reaches the first window, for every configuration |
| Task3Runs.LastWindowRun | examples/personalities/cpp_pm_sort/src/cpp_pm_sort_plugin.cpp:598-612 | a run without crashes reaches the second window, for every configuration |
| Task3Runs.SilentlyWrong | examples/personalities/cpp_pm_sort/src/cpp_pm_sort_plugin.cpp:655-668 | from every fresh pool two crashes suffice to end idle with any one record all over the output |
| Task3Runs.LostIsUnseen | examples/personalities/cpp_pm_sort/src/cpp_pm_sort_plugin.cpp:755-793 | a crash in the second window, resumed and interrupted again, may leave the superblock and keys of a pool in order and yet lead to a wrong output, so no test of them can tell |
| Task3Runs.AgainIsUnseen | examples/personalities/cpp_pm_sort/src/cpp_pm_sort_plugin.cpp:570-595 | the same may come of a finished sort that is started again and resumed after each exception, in every configuration |
| Task3Slots.RunRefines | examples/personalities/cpp_pm_sort/src/cpp_pm_sort_plugin.cpp:617-793 | every run over the two slots whose crashes, also inside an update that began with slot 1 valid and current, are not read as inside a window, is such a run with an atomic superblock: same pool, position and reading, although the update of line 661 may leave the slots with different phases |
| Task3Slots.SlotCustody | examples/personalities/cpp_pm_sort/src/cpp_pm_sort_plugin.cpp:617-793 | so over the slots as well the chunks that the reading names hold each input record exactly once, no exception is raised, an end is sorted, and the test of what is read is exact |
| Slots.GetUpdatedSuperblock | examples/personalities/cpp_pm_sort/src/cpp_pm_sort_plugin.cpp:314-323 | returns the valid slot with the larger timestamp, slot 0 on a tie; null if and only if no slot is valid |
| Slots.PartialFillIsCovered | examples/personalities/cpp_pm_sort/src/cpp_pm_sort_plugin.cpp:69-73 | a crash between the field stores finds nothing that a crash after them could not find |
| Slots.UpdateAtomicIff | examples/personalities/cpp_pm_sort/src/cpp_pm_sort_plugin.h:75-89 | for any update of a flushed pair, with each slot persisted whole: every crash point reads as all-old or all-new if and only if slot 1 was valid and current at the start and what it becomes is old, new or not the later one |
| Slots.UpdateReads | examples/personalities/cpp_pm_sort/src/cpp_pm_sort_plugin.cpp:61-78 | any update whatsoever that begins with slot 1 valid: a crash at any point is read as the pair or slot 1 before it, or as what it makes of one of the slots |
| Slots.IntendedIsAtomic | examples/personalities/cpp_pm_sort/src/cpp_pm_sort_plugin.h:75-89 | as the header describes it, any sequence of updates of slots that agree, and of complete updates of slots that read alike, is atomic under one crash anywhere, whatever the clock returns |
| Slots.FirstPersistCoversSecond | examples/personalities/cpp_pm_sort/src/cpp_pm_sort_plugin.cpp:67 | flushing the lines of slot 0 reaches all of slot 1 if and only if the pair sits at an offset above 24 and at most 48 in its cache line |
| Slots.MissedFieldTears | examples/personalities/cpp_pm_sort/src/cpp_pm_sort_plugin.cpp:61-78 | when a field of slot 1 is missed, two updates and one crash read back a value that is neither old nor new |
| Slots.AsWrittenAtomicIff | examples/personalities/cpp_pm_sort/src/cpp_pm_sort_plugin.cpp:61-78 | the code as written is atomic for all such sequences, the update without a phase of line 661 included, if and only if the pair has that placement |
| Slots.SecondCrashAtomicIff | examples/personalities/cpp_pm_sort/src/cpp_pm_sort_plugin.cpp:61-78 | from whatever a first crash left, the next update is atomic under a second crash if and only if slot 1 was left valid and current |
| Slots.TwoCrashesLoseBoth | examples/personalities/cpp_pm_sort/src/cpp_pm_sort_plugin.cpp:61-78 | from any settled pair two crashes leave no valid slot, even with the intended persists |
| Slots.TwoCrashesUndoUpdate | examples/personalities/cpp_pm_sort/src/cpp_pm_sort_plugin.cpp:61-78 | from any settled pair two crashes bring back the value before an update that was already visible |
| Slots.SuperblockPair.UpdateSuperblock | examples/personalities/cpp_pm_sort/src/cpp_pm_sort_plugin.cpp:61-78 | store by store, the method passes through exactly the states of the history the lemmas are about |
| MemOps.DirectionIsSafe | src/lib/libpmem/memops_generic.c:115 | the unsigned difference test goes upward exactly when nothing is to be copied, or the addresses differ and no source byte can be overwritten before it is read; it goes downward only with the destination at or above the source |
| MemOps.Cpy64 | src/lib/libpmem/memops_generic.c:51-79 | 64 bytes are loaded before any is stored, so overlap inside the block does no harm; eight word stores result |
| MemOps.MoveForward | src/lib/libpmem/memops_generic.c:116-159 | head bytes, 64-byte blocks, words and tail bytes upward: destination equals the original source, one store per byte |
| MemOps.MoveBackward | src/lib/libpmem/memops_generic.c:160-205 | the mirrored path: same result for destinations above the source |
| MemOps.MemmoveNodrainGeneric | src/lib/libpmem/memops_generic.c:104-208 | the destination gets the original source bytes and nothing else changes; the stores tile the destination; the range is pending unless NOFLUSH |
| MemOps.OneStorePerWord | src/lib/libpmem/memops_generic.c:104-208 | each whole aligned word of the destination is written by exactly one store, of all eight bytes |
| MemOps.WordsAreAtomic | src/lib/libpmem/memops_generic.c:104-208 | after any number of those stores each whole aligned word is wholly old or wholly new |
| MemOps.CallIsWordAtomic | src/lib/libpmem/memops_generic.c:104-208 | the same for the store log a call appends, whatever was stored before |
| MemOps.ReplicateBytes | src/lib/libpmem/memops_generic.c:236-242 | shifting and or-ing a byte gives a word of eight such bytes, for every byte |
| MemOps.MemsetNodrainGeneric | src/lib/libpmem/memops_generic.c:213-271 | every destination byte becomes (unsigned char) c and nothing else changes; same stores and flushes as memmove |
| Pmem.PmemPersist | src/lib/libpmem/pmem.c:251-258 | the persistent image of the range equals its current content; what else was pending has arrived, and no other byte of the image has changed |
| Pmem.PmemMemmove | src/lib/libpmem/pmem.c:612-653 | correct content for all overlaps, and exactly what is pending and what has arrived: with NOFLUSH nothing changes there; with NODRAIN alone the range is pending with its new bytes on top of what was, and the image is unchanged; otherwise range and all that was pending have arrived |
| Pmem.PmemMemmoveNodrain | src/lib/libpmem/pmem.c:682-709 | correct content for all overlaps; the range is pending with its new bytes, the image unchanged |
| Pmem.PmemMemmovePersist | src/lib/libpmem/pmem.c:714-743 | correct content for all overlaps, durable on return with all that was pending, and no other byte of the image changed |
| Pmem.PmemMemset | src/lib/libpmem/pmem.c:658-677 | as memmove, for a byte value, flag by flag |
| Pmem.PmemMemsetNodrain | src/lib/libpmem/pmem.c:748-759 | as memmove_nodrain, for a byte value |
| Pmem.PmemMemsetPersist | src/lib/libpmem/pmem.c:764-776 | as memmove_persist, for a byte value |
| Pmem.LaterDrainSettles | src/lib/libpmem/pmem.c:612-677 | after a call with any flags but NOFLUSH, a drain before anything else is flushed or stored makes the range durable |
| Pmem.CopyTwice | src/lib/libpmem/pmem.c:682-709 | two copies without a drain to ranges apart, and one drain, make both durable |
| Once.NextKeeps | src/lib/libpmem/pmem.c:339-400 | each atomic action of each thread keeps the invariant |
| Once.InitialisedOnce | src/lib/libpmem/pmem.c:339-400 | in every interleaving the body runs at most once, no compare-and-swap fails fatally, nobody calls through null; all callers use the same function, never for PMEM_IS_PMEM_FORCE 0, always for 1, else the one that was there, or never for none; `once` is the number of calls that added to it, in 32 bits, and no call gets through before the first has |
| Once.CanReturn | src/lib/libpmem/pmem.c:339-400 | from every reachable state every caller can still return, with that function: a constructed continuation of finite length |
| Statistics.WelfordStep | src/apps/kvstore-perf/statistics.h:66-107 | the incremental mean is the average and the incremental sum of squares is the sum of squared deviations from the new mean |
| Statistics.RunningStatistics.AddValue | src/apps/kvstore-perf/statistics.h:29-36 | minimum, maximum, mean and sum of squared deviations are those of all values added so far |
| Statistics.BinOfIsInterval | src/apps/kvstore-perf/statistics.h:190-205 | the bin of a value is b if and only if it lies in the half-open interval of b, the end bins also taking what lies outside |
| Statistics.ReachableConverts | src/apps/kvstore-perf/statistics.h:190-205 | from the arguments alone: the conversion to int is defined if and only if the value is less than 2^31 bins above, and 2^31 + 1 below, the lower threshold |
| Statistics.BinStatistics.constructor | src/apps/kvstore-perf/statistics.h:127-148 | the increment times the number of bins is the width of the range; all bins start empty |
| Statistics.BinStatistics.UpdateValueForBin | src/apps/kvstore-perf/statistics.h:152-164 | every bin still holds the statistics of exactly the values routed to it, and the bin is the one of the value wherever the conversion to int is defined |
| Statistics.CountsAddUp | src/apps/kvstore-perf/statistics.h:152-164 | the bins together received each sample exactly once |
| Statistics.MakeBinStatistics | src/apps/kvstore-perf/statistics.h:127-148 | rejected if and only if there are no bins or the thresholds are reversed; equal thresholds are accepted |
| Statistics.ComputeBinStatisticsFromVectors | src/apps/kvstore-perf/experiment.cpp:898-913 | the bins hold the statistics of the first `elements` pairs, none lost; each pair is in bin b if and only if its bin value lies in the b-th of the given number of equal parts of the given range, the end bins taking what is outside, wherever the conversion to int is defined |
| DaxLayout.AndPredecessor | src/apps/kvstore-perf/experiment.cpp:77 | n & (n-1) is n without its lowest bit, for every n |
| DaxLayout.AndNegated | src/apps/kvstore-perf/experiment.cpp:80 | n & -n is the lowest bit, in any word width |
| DaxLayout.SingleBit | src/apps/kvstore-perf/experiment.cpp:77 | a positive number is its own lowest bit if and only if it is a power of two |
| DaxLayout.RoundUpToPow2 | src/apps/kvstore-perf/experiment.cpp:74-84 | the least power of two that is at least n for 0 < n <= 2^63, and 0 for 0 and above 2^63; the loop terminates on every word |
| DaxLayout.DevDaxMaxSize | src/apps/kvstore-perf/experiment.cpp:548-558 | the largest device size, reached by some device, or 0 |
| DaxLayout.DevDaxMaxCountPerNode | src/apps/kvstore-perf/experiment.cpp:560-580 | with device numbers below 2^32 - 1 the largest of them plus one, 0 for no devices, although the counters are indexed by core; in general the largest of the numbers plus one, each in 32 bits |
| DaxLayout.DeviceAddress | src/apps/kvstore-perf/experiment.cpp:313-325 | for every map the address is 0x7000000000 plus stride times slots times node plus stride times device, modulo 2^64, with the strides of the map |
| DaxLayout.StridesUnique | src/apps/kvstore-perf/experiment.cpp:321-322 | every core computes the same strides |
| DaxLayout.WindowsDisjointIff | src/apps/kvstore-perf/experiment.cpp:321-325 | for every map: no two different devices overlap if and only if the stride is defined and no two of them with any memory have the same place |
| DaxLayout.WindowsDisjoint | src/apps/kvstore-perf/experiment.cpp:321-325 | so all windows are disjoint with sizes up to 2^63 and device numbers below 2^32 - 1 |
| DaxLayout.AddressesDisjoint | src/apps/kvstore-perf/experiment.cpp:325 | if no window ends above 2^64, the 64-bit addresses are apart as well |
| DaxLayout.LastNumberCollides | src/apps/kvstore-perf/experiment.cpp:568 | devices 0.4294967295 and 1.4294967295 get the same address: the count wraps to 0 |
| DaxLayout.SafeUpToIff | src/apps/kvstore-perf/experiment.cpp:568 | all maps with device numbers up to k are disjoint if and only if k is below 2^32 - 1 |
| RangeList.PushRange | src/apps/kvstore-perf/get_vector_from_string.h:54-57 | the counting loop pushes exactly the elements from first up to second, modulo 2^32 |
| RangeList.GetVectorFromString | src/apps/kvstore-perf/get_vector_from_string.h:46-67 | the do-while loop computes the recursive grammar of the list, errors included |
| RangeGrammar.ParseIff | src/apps/kvstore-perf/get_vector_from_string.h:12-67 | for every text: the result is a vector if and only if the text is a list of exactly these elements, by a grammar of blanks, signs, 32-bit numbers, pairs, ranges, lengths and commas with both ends of a range on one node; it is an error if and only if the text is no such list |
| RangeGrammar.BlankSkipped | src/apps/kvstore-perf/get_vector_from_string.h:12-42 | a blank wherever a number is expected changes nothing |
| RangeList.RoundTrip | src/apps/kvstore-perf/get_vector_from_string.h:15-67 | any list of ascending ranges, printed in any of the three forms, plain or dotted, is read back as what its items stand for if and only if none is the range of all 32-bit numbers |
| RangeList.TrailingRejected | src/apps/kvstore-perf/get_vector_from_string.h:60-65 | a character other than a digit and a comma, nor - or : behind a single element, makes the whole list an error |
| RangeList.FullRangeIsEmpty | src/apps/kvstore-perf/get_vector_from_string.h:15-42 | 0-4294967295 is read as the empty list |

## Left out

- Loading the input files (`load_data`), clearing the pool and `init`: the state they leave is the initial state of the runs. The client calls `init` before a sort.
- Locks, failures of `cb_open_key` other than for a missing key, failures of `cb_create_key`, exhausted memory, logging and timing.
- Sizes of chunks that do not match: a chunk in the pool has the size its name implies, and a chunk created on demand gets the size that is passed along. Where a chunk is too short to cut an output from it, the model takes any records.
- `std::map` order: the RAM map is a finite map and is walked in any order.
- 64-bit overflow of chunk sizes and indices in the plugin, and wrap-around of the 32-bit counter of the statistics.
- The superblock is one atomic value in Task2 and Task3. Task2Slots and Task3Slots compose the tasks with the slots, for updates that begin with slot 1 valid and current; without that see Slots.TwoCrashesUndoUpdate.
- An index of R*N + 2 leaves the index of a slot as it is (line 70). With one record per chunk this is N + 2, which task 3 passes only behind the last pair of a phase, where the index that stays means the same. The model stores the index.
- The contents of a key that was created and not yet written are arbitrary in Task2 and Task3; the byte-wise progress of the copy into it is in MemOps and Pmem.
- Task 2 loads a level in one step. In every reachable state all its chunks are there or its first one is missing, so nothing is created on the way.
- The RAM computations of task 2 are single steps between persistent operations; their loops are in Sorting and Task1.
- Exceptions of task 1 leak the buffers allocated so far; the model returns them with the map.
- Task3Runs.PassedIsInevitable: one way only, because past a window memory may by luck hold the right records, and a state that fails the test may then be completed. After a resumption without input the phase that the fresh superblock held must be one of this sort, or 0.
- Flushes act on the byte range given. Rounding to whole cache lines only makes more bytes durable; it is modelled where it matters, in Slots.
- The vector-instruction and eADR variants of libpmem, mapping, `pmem_msync`, deep flush, and `is_pmem` detection itself.
- MemOps.MemmoveNodrainGeneric: source and destination lie in one memory of at most 2^64 bytes; two unrelated objects are two ranges of it.
- Once.InitialisedOnce: sequentially consistent steps; a thread calls `pmem_is_pmem` once, further calls are further threads.
- Statistics.RunningStatistics.AddValue: real arithmetic, so no rounding; the standard deviation, a square root, is not modelled.
- Statistics.BinStatistics.UpdateValueForBin: where the conversion of the quotient to int is undefined in the source (equal thresholds, values too far outside) any bin may be chosen.
- DaxLayout.DeviceAddress: the size of a device is a parameter, any number below 2^64.
- DaxLayout.DevDaxMaxSize: the device map itself (`make_core_to_device_map`) is a parameter.
- RangeList.RoundTrip: the stream functions follow the C++ library for unsigned 32-bit numbers in the classic locale.
- RangeList.GetVectorFromString: a dotted pair whose ends name different nodes is an error, as in the source; memory exhausted by a descending range is not modelled.
- All other components of the repository: stores, transports, the ADO protocol, the Python front end.

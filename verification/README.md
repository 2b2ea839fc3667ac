# A verified model of the stateful core of a blob-backed file system

The project models, in Dafny, the parts of the FUSE driver for Azure Blob Storage that keep state between
calls and whose correctness does not show in any one function. It proves what they promise for every input,
every order of concurrent steps and every run.

- **Block-blob editor** (`FlatFile`, `BlobStore`, `BlockList`, `BlockEdit`, `BlockBlob`). A positional write and a
  truncation of a flat file are carried out on a list of blocks: the touched blocks are found by binary search
  and marked, fresh blocks are appended, old bytes are read and overlaid, dirty blocks are staged and the id list
  is committed. The result is compared with `pwrite()` and `ftruncate()` of the System Interfaces volume of
  POSIX.1-2017. The blob service is Put Blob, Put Block, Put Block List and Get Block List on one blob; every call
  may fail, and a failed Put Block may still have staged its data. An edit is refused exactly when the list has no room
  for it, unless a call fails.
- **Block cache** (`BlockPool`, `Writer`, `Reader`, `ReaderRun`, `Handles`). Memory blocks move between a shared pool and
  the two lists of a handle while workers upload or download them in any order, with retries. Blocks are records in the
  pool's memory; maps, lists and work items hold references to them. A worker step can happen at every point where a
  handle waits, before every operation and before every round of a write, and takes any item of the queue. `Handles`
  puts any number of readers and writers over one pool.
- **File-cache eviction** (`Generations`, `Passes`, `LruPolicy`, `Links`, `LfuPolicy`, `Shelves`, `ShelfOrder`,
  `OpenHandles`). The LRU policy is an intrusive doubly linked list of heap objects with two moving markers; a pass
  detaches expired nodes under the lock and sweeps them one by one after it. The LFU policy is a linked list of linked
  lists with two maps into it, and refines a row of shelves (`Shelves`), one for each use count. The handle count and
  the per-file lock that guard deletion are a state machine over all interleavings.
- **Attribute cache** (`AttrCache`), with virtual directories or without, **paged directory listing** (`DirPaging`) and
  the streaming **block LRU** (`LruCache`).

Lists the program mutates are `seq` fields that methods reassign, dictionaries are `map` fields. Storage outcomes and
the choice of the next worker item are arbitrary (`*` and `:|`), expiry and disk usage are parameters, so every theorem
holds for all of them. Ghost counters record what went wrong outside the program (`faults`: storage calls that failed;
`given`: downloads that ran out of retries; `starved`: no memory for a block), so that contracts can say that nothing is
refused without such a cause. Random ids are drawn from a counter.

## What the code does not do

Where a promise fails, the code is modelled as it is, and the condition under which the promise holds is proved, exactly
unless the line says otherwise.

- A write to an empty single-upload blob ignores the offset, and an empty write past the end of a block list still
  extends the file: `WriteMeetsPwrite` is an if-and-only-if.
- Download errors inside a write or a shrinking truncation are only logged; the lost bytes become zero.
  `LostDownload` says exactly when that is harmless. Truncating from or to the empty file loses the upload's error, and
  a truncation to nothing is carried out but reported as failed when the attribute lookup before it failed.
- The over-1GB truncation commits one block id many times (`RepeatedIdsBreakEdit` shows what a later edit then does)
  and joins the configured prefix twice, so that it cannot succeed when there is a prefix.
- A write that fails after staging a block leaves a copy behind, and the next write to another block commits it
  (`LeftoverCommitted`). A listed block is kept exactly when no other copy waits under its id (`KeptUnlessOther`), so a
  write asks that of the blocks it does not stage again, and a truncation of those it keeps whole. An edit that failed
  leaves this true for itself: made again until it succeeds, it is one `pwrite()` or `ftruncate()` (`Persist`).
- An append into a partly filled block that a flush has let go of downloads the block again, and a failed download is
  not noticed. After a *failed* flush it cannot succeed, because the blob is shorter than the file. `WriteFile` says
  exactly when the block is lost, `Session` what that means for whole runs, `StaleAppendLoses` is a run.
- In random-read mode the cleanup opens blocks whose download was given up, and later reads return whatever they
  hold. `MoveReady` says exactly which blocks it does this to, `GetBlock` that a block it returns is such a one exactly
  when it was before the call, `GivenUpReads` is a run. While reads are sequential, or no download is given up, there
  are none.
- A CloseFile whose flush fails keeps its blocks for good; the pool is full again once every close has succeeded.
- An LRU pass that finds more than `maxEviction` expired files, but evicts some, leaves the node behind the last
  marker without its link back. `DeleteExpiredNodes` proves both directions, `LinkedBack` that this is no list.
- A pass evicts a file that was purged and used again after it was detached: the flag it looks at belongs to the old
  node, and what it removes to the name. `SweepTakesListed` says exactly when, `PurgedThenUsed` that it always does.
- The LFU policy does not always evict the least used file. A new bucket never goes before the first one, so a file that
  is new when every file left has been used again comes behind a bucket with a larger count, and so can one whose count
  wraps around. `StepOrdered` says exactly which operations do this, `RunOrdered` and `EvictsLeastUsed` what holds until
  then, `UsedMoreEvicted` is a run.
- When `stat` of a local file in use fails, OpenFile downloads over the file, and a failing download deletes it. This
  is the only step that leaves the safe states (`StepInv`), and from there the file can always be lost
  (`MisjudgedLoses`).
- With virtual directories, the default, a change can make or end a directory the cache has an entry for. Each operation
  of `AttrCache` has the exact condition under which the cache still agrees with the storage; `VirtualParentStale` and
  `MissingParentStale` are instances, and `Session` proves that markers in every directory suffice and are kept.
- With virtual directories a path is looked up by listing, and a listing that fails twenty times in a row is reported as
  "not found", as is a directory without marker when the one lookup of its marker fails. The attribute cache then has
  an entry that says so. `GetAttr` is wrong exactly when this happens to a path that is there; `LookupLost` has the
  input for every such path.
- A rename deletes the source even when the copy was started and then aborted (`RenameBlob`). A rename that was
  copied and not deleted, and a directory operation that reports an error or leaves blobs behind, are
  not seen by the attribute cache; the same conditions cover them. TruncateFile uses the name untruncated.
- Putting a key that the streaming LRU already holds leaves the old node on its list for good, unless it is the one
  evicted to make room (`Put` is exact).

## Model

| member | source | states |
|---|---|---|
| `BlockList.BlockOffsetList.BinarySearch` | common/types.go:202-221 | a block found holds the offset; on a tiled list one is found exactly when some block holds it, that is for every offset below the end of the file |
| `BlockList.OneHolder` | common/types.go:202-221 | on a tiled list every position below the end lies in exactly one block |
| `BlockList.BlockOffsetList.MarkRun` | common/types.go:253-265 | the marking loop dirties exactly the run from the first block through the last one that starts at or before the end of the write, and returns its size |
| `BlockList.BlockOffsetList.FindBlocksToModify` | common/types.go:245-268 | exactly that run is dirty, the size is the run's, the two flags say whether the write reaches or starts past the end |
| `BlockBlob.BlockBlob.WriteFromBuffer` | component/azstorage/block_blob.go:941-963 | a successful upload leaves exactly the data in an editable blob, a failed one changes nothing |
| `BlockBlob.BlockBlob.ReadBuffer` | component/azstorage/block_blob.go:749-777 | a successful download is the content; a failed one is nothing or the content with bytes missing, and only when a call failed |
| `BlockBlob.BlockBlob.GetFileBlockOffsets` | component/azstorage/block_blob.go:966-997 | the list has the committed ids and sizes in order and is clean, and tiles the file when no committed block is empty |
| `BlockBlob.BlockBlob.AppendBlocks` | component/azstorage/block_blob.go:1029-1037 | fresh dirty blocks tile exactly from the old end to the wanted end, none larger than the chosen size |
| `BlockBlob.BlockBlob.CreateNewBlocks` | component/azstorage/block_blob.go:1013-1039 | if and only if: accepted exactly when the configured size, or without one 16 MB or some size that can be staged, fits the length into the slots left; the size chosen is then that one, or the smallest that fits; the list is extended exactly to offset + length and can be committed exactly when the gap before the offset fits too; on refusal nothing changed |
| `BlockBlob.SmallestRoom` | component/azstorage/block_blob.go:1015-1024 | the length shared out over the slots left is the smallest block size that fits, so that some size up to a limit fits exactly when that one does |
| `BlockEdit.CommitStaged` | component/azstorage/block_blob.go:1273-1307 | committing a fully staged list gives every dirty block its piece and keeps every clean block |
| `BlockEdit.KeptUnlessOther` | component/azstorage/block_blob.go:1273-1307 | if and only if: a committed block that is listed again without being staged is kept exactly when no uncommitted copy with other bytes waits under its id |
| `BlockEdit.SlicesRejoin` | component/azstorage/block_blob.go:1279-1293 | the slices staged for consecutive blocks, put together, are the buffer |
| `BlockEdit.EditedContent` | component/azstorage/block_blob.go:1273-1307 | after a commit the blob is the old bytes up to the dirty run, the buffer, and the old bytes after the run |
| `BlockBlob.BlockBlob.StageAndCommitModifiedBlocks` | component/azstorage/block_blob.go:1273-1307 | each dirty block is staged with its own slice and the whole list committed; unless a call fails it succeeds exactly when the list is within the limit; when anything fails the content is what it was, and nothing waits under a block that was not to be staged |
| `BlockBlob.BlockBlob.WriteSingle` | component/azstorage/block_blob.go:1207-1229 | the branch without block list: on success the same bytes, except that nothing delivered means just the data; on failure nothing changed; it fails only when a call did |
| `BlockBlob.BlockBlob.PlanWrite` | component/azstorage/block_blob.go:1230-1250 | the dirty blocks are one run that covers the write, made of exactly the committed blocks the write touches and of appended ones; if and only if: there is such a plan, within the limit, exactly when there is room |
| `BlockBlob.FoundTouched` | common/types.go:245-268 | the run found is exactly the committed blocks that start at or before the end of the write and end after its offset |
| `BlockBlob.BlockBlob.FetchRun` | component/azstorage/block_blob.go:1251-1262 | the buffer is the run's committed bytes, each of them or zero when the download failed, followed by zeros |
| `BlockBlob.SpliceIsWrite` | component/azstorage/block_blob.go:1251-1268 | overlaying the buffer of a run and splicing it back is a write to the whole file |
| `BlockBlob.BlockBlob.WriteBlocks` | component/azstorage/block_blob.go:1230-1268 | the block branch, as long as no other copy waits under a block the write does not touch: on success the delivered bytes zero-padded with the data overlaid, and a blob that can be edited again; on failure the content unchanged, and the same still true; unless a call fails, success exactly when there is room |
| `BlockBlob.BlockBlob.Write` | component/azstorage/block_blob.go:1192-1270 | both branches: on success the bytes the download delivered, zero-padded and with the data overlaid, in a blob that can be edited again; on failure the content unchanged, and the same write can be made again; if and only if: when no storage call fails everything is delivered, and the write succeeds exactly when it appends nothing or the block list has room for what it appends |
| `BlockBlob.WriteMeetsPwrite` | component/azstorage/block_blob.go:1207-1229 | if and only if: when a successful write is `pwrite()` |
| `BlockBlob.PWriteBytes` | component/azstorage/block_blob.go:1192-1270 | `pwrite()` byte by byte: data inside, old bytes or zeros outside |
| `BlockBlob.FTruncateBytes` | component/azstorage/block_blob.go:1067-1172 | `ftruncate()` byte by byte: old bytes, then zeros |
| `BlockBlob.LostDownload` | component/azstorage/block_blob.go:1207-1262 | if and only if: a download error ignored by a non-empty write is harmless exactly when every lost byte is overwritten, in the branch without blocks when the write covers the whole file |
| `BlockBlob.RepeatedIdsBreakEdit` | component/azstorage/block_blob.go:1083-1108 | with a repeated id an edit of one block changes another place of the file |
| `BlockBlob.LeftoverCommitted` | component/azstorage/block_blob.go:1273-1307 | a block staged by a write that failed is committed by the next write, to another block |
| `BlockBlob.BlockBlob.StageAndCommit` | component/azstorage/block_blob.go:1309-1362 | success: the committed blocks are the listed ones, zeros where truncated, and no dirty or truncated flag remains; failure: content unchanged, and nothing waits under a block that was not to be staged; unless a call fails, refused exactly when there is something to commit and the list is over the limit |
| `BlockBlob.BlockBlob.RemoveBlocks` | component/azstorage/block_blob.go:1041-1065 | the list is cut at the size, a block cut inside holds what was fetched of it |
| `BlockBlob.BlockBlob.ShrinkBlocks` | component/azstorage/block_blob.go:1150-1160 | as long as no other copy waits under a block kept whole: the content is the first size bytes, with zeros only where a download failed; on failure, which takes a failed call, the content unchanged, and the same still true |
| `BlockBlob.BlockBlob.GrowBlocks` | component/azstorage/block_blob.go:1140-1160 | the content is the old bytes followed by zeros; on failure the content unchanged and the blob as editable as before; unless a call fails, success exactly when the list has room |
| `BlockBlob.BlockBlob.TruncateBlocks` | component/azstorage/block_blob.go:1154-1168 | all three block branches: `ftruncate()`, or after a lost download a cut file with zeros in it; on failure nothing changed and the truncation can be made again; unless a call fails it is stored and reported, or, when growing finds no room, neither |
| `BlockBlob.KeptWhole` | component/azstorage/block_blob.go:1041-1065 | the blocks a cut does not stage again are exactly those that end at or before the new size |
| `BlockBlob.BlockBlob.StageZeros` | component/azstorage/block_blob.go:1080-1107 | the id list spells size zero bytes out of one repeated block and a shorter last one |
| `BlockBlob.BlockBlob.TruncateEmpty` | component/azstorage/block_blob.go:1077-1125 | zeros of the new size when stored; exactly which failure is reported; above 1 GB never stored under a prefix, and ids not distinct; unless a call fails, stored exactly when it is at most 1 GB or there is no prefix and 16 MB blocks suffice |
| `BlockBlob.BlockBlob.HandleSmallFile` | component/azstorage/block_blob.go:1174-1189 | the downloaded bytes cut or zero-filled to the size |
| `BlockBlob.BlockBlob.TruncateFile` | component/azstorage/block_blob.go:1067-1172 | stored means `ftruncate()` in every branch; success with nothing stored leaves the old content or, after a lost download, a cut file with zeros in it; a reported failure leaves the content, and a truncation that can be made again, or, for size 0, nothing; when the blob can be edited again; if and only if: when no storage call fails it is stored and reported as success exactly when there is room, and otherwise neither |
| `BlockBlob.BlockBlob.Persist` | component/azstorage/block_blob.go:1067-1270 | a write or truncation that fails any number of times and then succeeds is one `pwrite()` or `ftruncate()`; with room for it, giving up after so many tries takes as many failed calls |
| `BlockBlob.BlockBlob.RunEdits` | component/azstorage/block_blob.go:1067-1270 | any sequence of writes and truncations, each made again when it fails, replays on a flat file, up to and without the first edit that never succeeds or does other than it reports; it stops only at an edit without room, at a full list without block size, or after a failed call in every try, and hides an error only after a failed call; the run may start on what failed calls of its first edit left |
| `BlockPool.NewBlockPool` | component/block_cache/blockpool.go:53-80 | if and only if: no pool exactly for a bad configuration or when memory cannot be mapped; otherwise exactly memory / block size free blocks |
| `BlockPool.BlockPool.MustGet` | component/block_cache/blockpool.go:102-123 | a reset block from the free list, always when there is one, else a newly mapped one, else nothing changed |
| `BlockPool.BlockPool.TryGet` | component/block_cache/blockpool.go:126-140 | a reset block exactly when one is free |
| `BlockPool.BlockPool.Release` | component/block_cache/blockpool.go:143-150 | back to the free list, or unmapped when that is full; at least maxBlocks blocks stay live |
| `BlockPool.AllFree` | component/block_cache/blockpool.go:53-150 | when every live block is free, exactly maxBlocks are free |
| `BlockPool.TakenOwned` | component/block_cache/blockpool.go:102-140 | a block taken from the pool was on no list of any handle, and every other block is as it was |
| `BlockPool.ReleasedOwned` | component/block_cache/blockpool.go:143-150 | releasing keeps every live block in exactly one place |
| `BlockPool.BlockPool.GiveBack` | component/block_cache/blockpool.go:143-150 | a block that has left its handle is free or unmapped; the blocks of every other handle keep their bytes and their state |
| `BlockPool.TheirsKept` | component/block_cache/block.go:109-121 | changing or giving back a block of one's own leaves the blocks of all other handles as they are |
| `Writer.Writer.constructor` | component/block_cache/block_cache.go:283-301 | a new file: no block held, an empty blob, and everything the other operations rely on |
| `Writer.Writer.Attempt` | component/block_cache/block_cache.go:1069-1135 | one upload attempt: staged and clean, given up after the fourth failure and still dirty, or queued again |
| `Writer.StagingKeeps` | component/block_cache/block_cache.go:1078-1083 | staging one chunk under its own id leaves every other chunk staged |
| `Writer.AttemptKeeps` | component/block_cache/block_cache.go:1069-1135 | any worker step at any time keeps the whole invariant of the handle |
| `Writer.Writer.Await` | component/block_cache/block_cache.go:1041-1046 | waiting ends, whatever other items are finished first, with the block's result there |
| `Writer.LineupKeeps` | component/block_cache/block_cache.go:997-1031 | a dirty block handed to the workers under a fresh id keeps the invariant |
| `Writer.Writer.LineupUpload` | component/block_cache/block_cache.go:997-1031 | new id in the block list, one work item, block moved between the lists |
| `Writer.Writer.StageBlocks` | component/block_cache/block_cache.go:972-994 | exactly cnt dirty blocks go to the workers, or all that are not open |
| `Writer.ReturnKeeps` | component/block_cache/block_cache.go:1050-1055 | a block whose upload was given up goes back to be filled and loses nothing |
| `Writer.RetireKeeps` | component/block_cache/block_cache.go:1056-1064 | an uploaded block is let go only when its chunk is staged under its id |
| `Writer.Writer.WaitAndFreeUploadedBlocks` | component/block_cache/block_cache.go:1033-1066 | blocks in hand are freed, exactly cnt of them unless none is left in hand, or put back, which takes a failed upload |
| `Writer.HeldBound` | component/block_cache/block_cache.go:972-994 | a handle holds no more blocks than the file has, so MAX_BLOCKS covers them |
| `Writer.Writer.UploadAll` | component/block_cache/block_cache.go:1141-1157 | after the three rounds no block is in hand, and none is left unless all rounds were used and an upload failed |
| `Writer.AllStaged` | component/block_cache/block_cache.go:1172-1188 | with no block held, no upload is in flight and the sorted ids are exactly those of all chunks, each staged |
| `Writer.CommitKeeps` | component/block_cache/block_cache.go:1172-1195 | committing the sorted ids makes the blob the whole file and keeps the invariant |
| `Writer.SortedKeys` | component/block_cache/block_cache.go:1176-1182 | the keys of the block list, strictly ascending |
| `Writer.Writer.CommitBlocks` | component/block_cache/block_cache.go:1138-1199 | success: the blob is the file, nothing is in flight or held; failure, which takes a failed call: the blob is what it was |
| `Writer.Writer.OpenBlock` | component/block_cache/block_cache.go:910-936 | a block from the pool is on the map and the list as block index, every other place is kept |
| `Writer.Writer.Refetch` | component/block_cache/block_cache.go:926-941 | the block holds the blob's bytes up to the size of the handle exactly when the storage serves it and the blob is that long; otherwise anything, unnoticed |
| `Writer.NextIndex` | component/block_cache/block_cache.go:896-903 | the next byte goes to a new block exactly when the last one is full |
| `Writer.Writer.GetOrCreateBlock` | component/block_cache/block_cache.go:896-969 | the block for the next byte is new, held, or downloaded again, the last exactly when the last block has room and is not held; blocks in hand stay full, with at least three others being filled; none is had only when the file has all its blocks, or the pool is empty and cannot map one |
| `Writer.ChunkGrows` | component/block_cache/block_cache.go:877-890 | an append extends the last chunk or adds one, and the file is then what it was, or was rebased to, followed by the data |
| `Writer.Writer.WriteFile` | component/block_cache/block_cache.go:859-894 | the appended bytes follow the file as it was, unless the last block is lost: exactly when bytes are written, it has room, is not held, and the storage does not serve it or the blob is shorter than the file; bytes are left out only when the file has all its blocks, or the pool is empty and cannot map one |
| `Writer.StaleAppendLoses` | component/block_cache/block_cache.go:926-932 | a run by steps, from a new file: a byte is uploaded, the flush fails, and the next append puts any byte in its place |
| `Writer.GivenUpStaysHeld` | component/block_cache/block_cache.go:1050-1055 | a run by steps in which a failed flush does not let go of the last block, so that the next append needs no download |
| `Writer.Writer.FlushFile` | component/block_cache/block_cache.go:380-393 | success: the blob is the whole file and no upload is in flight; failure: the blob unchanged, and a storage call has failed in this flush |
| `Writer.Writer.CloseFile` | component/block_cache/block_cache.go:396-436 | success: no block held, and the blob is the file if it was dirty; failure: the blob unchanged, and a storage call has failed; other handles undisturbed |
| `Writer.Writer.Next` | component/block_cache/block_cache.go:380-894 | one more operation after any run: what the run says of file, blob, lost bytes and causes of failure holds of the longer one; the bytes taken are behind those that were there, of which the last block is lost exactly when the write goes into it, it is not held and it is not served |
| `Writer.Writer.Session` | component/block_cache/block_cache.go:859-1199 | any run of appends, flushes and closes with workers between them: nothing written since a successful flush means the blob is the file; a block is lost only by a write into a partly filled block after a flush, and after a successful one exactly when the storage does not serve it; otherwise the file is exactly the bytes accepted; flushes and closes all succeed when no storage call fails, and writes take everything while there is memory and the file is below its limit |
| `Writer.NotDisturbed` | component/block_cache/block_cache.go:859-1199 | what other handles do to blocks that are not its own leaves a writer in order |
| `Reader.Reader.Attempt` | component/block_cache/block_cache.go:748-856 | one download attempt: the right bytes, queued again, or given up |
| `Reader.AttemptKeeps` | component/block_cache/block_cache.go:748-856 | any worker step keeps map, lists, queue and contents in step |
| `Reader.RefreshKeeps` | component/block_cache/block_cache.go:677-745 | reusing the front block for another index keeps them in step |
| `Reader.ServeKeeps` | component/block_cache/block_cache.go:560-570 | opening a downloaded block keeps them in step |
| `Reader.DropKeeps` | component/block_cache/block_cache.go:541-550 | letting go of a block keeps them in step |
| `Reader.Reader.RefreshBlock` | component/block_cache/block_cache.go:677-723 | end of file exactly past the file; otherwise the index is mapped to a block under download whenever a block is free or wanted now, and nothing else changes on map and lists but the block taken from the front; no memory only when handle and pool have no free block |
| `Reader.Reader.MoveReady` | component/block_cache/block_cache.go:590-617 | afterwards every block still waiting is under download, and no block is lost; if and only if: a block is open though given up exactly when it was before, or its download had been given up and nobody had looked |
| `Reader.Reader.EvictExcess` | component/block_cache/block_cache.go:619-638 | at most MIN_PREFETCH free blocks remain, the last ones in their order; the rest went back to the pool |
| `Reader.Reader.TakeMore` | component/block_cache/block_cache.go:643-653 | exactly how many blocks a sequential reader takes |
| `Reader.Reader.StartPrefetch` | component/block_cache/block_cache.go:581-674 | unless memory ran out the requested index is mapped and under download, so that the not-found error after it cannot happen; on sequential reads exactly how many blocks after it are brought under download too; how far the number of blocks can grow; a given-up block is opened only by the cleanup |
| `Reader.Reader.GetBlock` | component/block_cache/block_cache.go:491-573 | the block covers the position asked for; if and only if: it is one that was given up exactly when the index was mapped to an open block that was given up before the call, and otherwise its bytes are the blob's; it fails only when the download of this very block ran out of retries, in this call or unseen before it, or the pool had no block and could not map one; a call opens given-up blocks only on a miss, with random reads and more than MIN_PREFETCH blocks; at most prefetch + 1 blocks are held |
| `Reader.Reader.FirstRead` | component/block_cache/block_cache.go:533-572 | the first reader of a block gets the file's bytes, or an error that lets go of the block, the latter only when its download ran out of retries |
| `Reader.Reader.ReadInBuffer` | component/block_cache/block_cache.go:439-472 | every byte returned for a position in the file is the blob's byte there, except in given-up blocks; none while reads are sequential or no download was given up, and the first block exactly when it was one before the call; success means all bytes; a read stops short only at the end of the file, or at a block whose download ran out of retries or for which there was no memory, and is complete when neither happened |
| `ReaderRun.GivenUpReads` | component/block_cache/block_cache.go:491-674 | a run by steps, from a new handle through opening the file with prefetch, eleven random reads and the cleanup with six blocks held, after which block 4 of the file is open with any bytes in it |
| `Reader.Reader.Session` | component/block_cache/block_cache.go:439-745 | any run of reads interleaved with worker steps: the right bytes but for given-up blocks, all of them right under the same condition, every read complete when no download ran out of retries and memory sufficed, and the block bound |
| `Reader.Reader.OpenFile` | component/block_cache/block_cache.go:348-357 | the prefetch on open brings block 0 of a small file, or exactly as many first blocks as prefetch and pool allow, under download, and keeps the block bound |
| `Reader.Reader.CloseFile` | component/block_cache/block_cache.go:396-436 | every block goes back; other handles undisturbed |
| `Reader.NotDisturbed` | component/block_cache/block_cache.go:439-745 | what other handles do to blocks that are not its own leaves a reader in order |
| `Handles.StepPartition` | component/block_cache/blockpool.go:102-150 | a step of one handle keeps every live block free or held by exactly one handle |
| `Handles.Mount.OnReader` | component/block_cache/block_cache.go:304-472 | an operation of one reader among any number of handles: right bytes, all of them unless a download ran out of retries or memory did, every other handle and every other block as before, and what was seen of every handle still true |
| `Handles.Mount.OnWriter` | component/block_cache/block_cache.go:380-894 | the same for one writer: the bytes taken are behind those that were there, of which the last block is lost exactly when it is not held and not served; a successful flush or close leaves the file in the blob |
| `Handles.Mount.SomePlace` | component/block_cache/blockpool.go:53-150 | every live block is free or held by a handle |
| `Handles.Mount.OnePlace` | component/block_cache/blockpool.go:53-150 | no block is held by two handles, or held and free |
| `Handles.Mount.AllClosed` | component/block_cache/block_cache.go:396-436 | when no handle holds a block any more, exactly as many are free as the pool was made with |
| `Handles.Run` | component/block_cache/block_cache.go:283-1199 | every run of any number of readers and writers, known by its events and what they reported: every live block has one place; every read of a reader that was sequential or had no download given up got the bytes of its file, and all of them when it never lacked memory either; every writer's file is as in a run of it alone, its flushes fail and its writes stop short only as there, and its blob is the bytes taken when nothing was lost and the last flush or close succeeded; when every handle has been closed with success the pool is full |
| `Generations.GenerationsByUse` | component/file_cache/lru_policy.go:357-378 | a listed file is before, between or behind the markers exactly according to its use since the last passes |
| `Generations.PassSelectsUnused` | component/file_cache/lru_policy.go:380-411 | a pass selects exactly the listed files not used since the previous pass |
| `Passes.RunTracked` | component/file_cache/lru_policy.go:380-424 | in every run of operations, passes and sweeps, what a pass detached waits for its sweep, is listed again or was purged, and nothing is left over when the next pass starts |
| `Passes.FlagMeans` | component/file_cache/lru_policy.go:331-337 | the flag on a detached node is clear exactly when the file was used and not purged since |
| `Passes.SweepEvicts` | component/file_cache/lru_policy.go:415-420 | if and only if: a sweep evicts a detached file exactly when nobody asked for its use since the pass, or somebody asked for its purge |
| `Passes.SweepTakesListed` | component/file_cache/lru_policy.go:415-420 | if and only if: a sweep takes a file that is listed exactly when callers asked to purge it and then to use it since the pass, and not to purge it again |
| `Passes.PurgedThenUsed` | component/file_cache/lru_policy.go:321-355 | in every run, purging and using the next file to be swept gets it evicted |
| `Generations.RunDistinct` | component/file_cache/lru_policy.go:232-424 | in every run each file has exactly one place |
| `Generations.RecencyOrder` | component/file_cache/lru_policy.go:232-273 | in every run the list is in order of last use |
| `LruPolicy.LruPolicy.constructor` | component/file_cache/lru_policy.go:112-118 | the list is the two markers, the map is empty |
| `LruPolicy.CutLinks` | component/file_cache/lru_policy.go:257-263 | the neighbours of a node are joined and it is left unlinked |
| `LruPolicy.LruPolicy.CacheValidate` | component/file_cache/lru_policy.go:232-273 | the file is first and every other file keeps its place; list, markers and map stay in step |
| `LruPolicy.LruPolicy.RemoveNode` | component/file_cache/lru_policy.go:321-355 | the file is gone from list and map and every other file keeps its place |
| `LruPolicy.LruPolicy.UpdateMarker` | component/file_cache/lru_policy.go:357-378 | front becomes middle, middle joins back |
| `LruPolicy.LruPolicy.Collect` | component/file_cache/lru_policy.go:399-403 | the first expired nodes, at most maxEviction, are flagged |
| `LruPolicy.LruPolicy.DetachExpired` | component/file_cache/lru_policy.go:380-411 | within the limit the expired files form a list of their own; beyond it their last node still points into the list |
| `LruPolicy.LruPolicy.SweepItem` | component/file_cache/lru_policy.go:415-420 | a detached file is dropped exactly when its node is still flagged |
| `LruPolicy.LruPolicy.SweepOne` | component/file_cache/lru_policy.go:415-420 | the flag of the next node is the one the run says, and its sweep does to list and map what the run says |
| `LruPolicy.LruPolicy.Pass` | component/file_cache/lru_policy.go:380-411 | a pass within the limit detaches the nodes the run says, each still mapped |
| `LruPolicy.LruPolicy.Sweep` | component/file_cache/lru_policy.go:415-420 | all detached files, and no other, leave the map |
| `LruPolicy.LruPolicy.SweepDangling` | component/file_cache/lru_policy.go:415-420 | after an overfull pass the node behind the last marker has no link back |
| `LruPolicy.LruPolicy.DeleteExpiredNodes` | component/file_cache/lru_policy.go:380-424 | the pass evicts what is behind the markers and leaves a list, if and only if it may evict all of it or nothing |
| `LruPolicy.LinkedBack` | component/file_cache/lru_policy.go:407-411 | on a well-linked list every successor links back |
| `LruPolicy.LruPolicy.IsCached` | component/file_cache/lru_policy.go:200-213 | true exactly for the files of the list |
| `LruPolicy.Replay` | component/file_cache/lru_policy.go:232-424 | every run of uses, purges, marks, passes within the limit and sweeps between them keeps links, map and recency order |
| `Links.LinkStore.Remove` | component/file_cache/lfu_policy.go:223-250 | the list without the node, well linked, the node unlinked, other lists untouched |
| `Links.LinkStore.Push` | component/file_cache/lfu_policy.go:252-263 | the list with the node at its end, other lists untouched |
| `Links.LinkStore.InsertAfter` | component/file_cache/lfu_policy.go:353-369 | the list with the node behind the given one |
| `LfuPolicy.LfuList.InsertSorted` | component/file_cache/lfu_policy.go:345-369 | the new bucket goes behind the start and the buckets after it that count less |
| `LfuPolicy.LfuList.AddFrequency` | component/file_cache/lfu_policy.go:336-372 | a bucket for a new count, on list and map, nothing else changed |
| `LfuPolicy.LfuList.DeleteFrequency` | component/file_cache/lfu_policy.go:311-334 | an empty bucket leaves list and map |
| `LfuPolicy.LfuList.Promote` | component/file_cache/lfu_policy.go:374-391 | the count grows by one plus the cache age, modulo 64 bits, and the file goes to the end of the shelf for it, which is made behind its old one if need be; no shelf is left empty |
| `LfuPolicy.LfuList.Get` | component/file_cache/lfu_policy.go:393-404 | a hit counts as a use, a miss changes nothing, on counts and shelves |
| `LfuPolicy.LfuList.EvictFirst` | component/file_cache/lfu_policy.go:417-426 | the first file of the first shelf goes, and with the last file its shelf |
| `LfuPolicy.LfuList.Evict` | component/file_cache/lfu_policy.go:415-427 | if and only if: exactly the files of the first j shelves go, in order, where j is 0 unless the disk is above the upper mark, and otherwise the first number at which it is not above the lower one |
| `LfuPolicy.LfuList.Put` | component/file_cache/lfu_policy.go:407-440 | a use of a cached file; otherwise exactly the files of the shelves that have to be cleared are evicted, in order, and the new file starts at one, at the end of its shelf |
| `LfuPolicy.LfuList.Delete` | component/file_cache/lfu_policy.go:443-458 | only the file is gone, from its shelf, and the cache age is its count |
| `LfuPolicy.OneBucket` | component/file_cache/lfu_policy.go:195-458 | a cached key sits in exactly one bucket, the one for its count |
| `Shelves.ClearsOne` | component/file_cache/lfu_policy.go:415-427 | how many shelves are cleared is determined by the marks and what the disk usage comes to |
| `LfuPolicy.Replay` | component/file_cache/lfu_policy.go:393-458 | after any run of put, get and delete the linked lists and maps are exactly the shelves of the same run on plain sequences, every put has evicted exactly the files the shelves say, the counts and the age are those of a simple tally, and every cached key is in exactly one bucket, the one for its count |
| `ShelfOrder.StepOrdered` | component/file_cache/lfu_policy.go:336-391 | if and only if: an operation keeps the shelves in order of their counts, unless it brings a new file when every file that stays has been used more than once, or wraps a count around onto a new shelf that does not belong behind the old one |
| `ShelfOrder.RunOrdered` | component/file_cache/lfu_policy.go:393-458 | in every run without such an operation the shelves are in order |
| `ShelfOrder.EvictsLeastUsed` | component/file_cache/lfu_policy.go:415-427 | in order, every evicted file has a smaller count than every file that stays |
| `ShelfOrder.UsedMoreEvicted` | component/file_cache/lfu_policy.go:345-369 | a run, for any three files, in which a file used twice is evicted and one used once stays |
| `LfuPolicy.TakeOutKeeps` | component/file_cache/lfu_policy.go:223-250 | removing a node from its bucket keeps both lists and both maps in step |
| `LfuPolicy.PutInKeeps` | component/file_cache/lfu_policy.go:252-263 | adding a node to the bucket for its count keeps them in step |
| `OpenHandles.OneAtATime` | common/lock_map.go:85-94 | two threads past the lock never work on the same file |
| `OpenHandles.StepCounting` | common/lock_map.go:97-109 | every step keeps the count equal to the open handles modulo 32 bits |
| `OpenHandles.ZeroMeansNone` | common/lock_map.go:107-109 | the count is zero exactly when no handle is open |
| `OpenHandles.StepCareful` | component/file_cache/file_cache.go:759-837 | if and only if: after a step every thread about to delete or replace a local file has found no handle, unless the step was a stat that failed for a file in use |
| `OpenHandles.DownloadsWhen` | component/file_cache/file_cache.go:759-800 | if and only if: without an open handle OpenFile downloads exactly when the file is not cached, not there as far as stat tells, or expired; with one, exactly when stat does not show it |
| `OpenHandles.StepKept` | component/file_cache/lru_policy.go:440-460 | no step takes the local file of an open handle |
| `OpenHandles.StepInv` | component/file_cache/file_cache.go:634-1030 | if and only if: every step of every thread keeps the whole invariant, unless it is such a stat |
| `OpenHandles.RunSafe` | component/file_cache/file_cache.go:634-1030 | if and only if: a run of any interleaving stays safe exactly when it has no such stat, as long as 32 bits suffice |
| `OpenHandles.MisjudgedLoses` | component/file_cache/file_cache.go:795-799 | after every such stat, a download that starts and fails loses the local file of an open handle |
| `OpenHandles.OnlyUnusedDeleted` | component/file_cache/lru_policy.go:426-465 | a local file disappears only when no handle is open on it |
| `OpenHandles.StatFailureDeletes` | component/file_cache/file_cache.go:795-799 | a failing stat and a failing download delete the local file of an open handle |
| `AttrCache.SameDirectory` | internal/component_options.go:212-230 | a directory is the same with and without its trailing slash, and a plain name is itself |
| `AttrCache.SiblingsApart` | component/attr_cache/attr_cache.go:172-189 | a name that only shares a prefix with a directory is not in it |
| `AttrCache.AfterPut` | component/attr_cache/attr_cache.go:327-338 | if and only if: after creating a path the cache agrees exactly when, with virtual directories, it has no valid entry that says a directory above is missing |
| `AttrCache.AfterDelete` | component/attr_cache/attr_cache.go:341-352 | if and only if: after deleting one, exactly when no cached directory without marker has lost its last content, and the name is not a directory's too |
| `AttrCache.AfterMove` | component/attr_cache/attr_cache.go:355-369 | if and only if: after renaming one, exactly when neither happens |
| `AttrCache.AfterDeleteDir` | component/attr_cache/attr_cache.go:244-257 | if and only if: after deleting a directory, exactly when nothing the cache has was left behind in it and no cached directory above was emptied |
| `AttrCache.AfterMoveDir` | component/attr_cache/attr_cache.go:307-324 | if and only if: after renaming one, the same, and no directory above the new place was cached as missing |
| `AttrCache.AttrCache.DeleteDirectory` | component/attr_cache/attr_cache.go:172-189 | exactly the entries at or in the directory say deleted |
| `AttrCache.AttrCache.InvalidateDirectory` | component/attr_cache/attr_cache.go:201-218 | exactly the entries at or in the directory are invalid |
| `AttrCache.AttrCache.DeletePath` | component/attr_cache/attr_cache.go:192-198 | the entry of the path, and no other, changes, and now says that there is nothing |
| `AttrCache.AttrCache.InvalidatePath` | component/attr_cache/attr_cache.go:221-227 | the entry of the path, and no other, changes, and is no longer used |
| `AttrCache.AttrCache.GetAttrUsingList` | component/azstorage/block_blob.go:489-540 | if and only if: the answer is the storage's exactly when the listing was read to the end with the path not dropped, or the path is not there |
| `AttrCache.LookupLost` | component/azstorage/block_blob.go:499-536 | for every path that is there, twenty failures in a row, or one when it is a directory without marker, make the lookup say that it is not, and the entry for that wrong |
| `AttrCache.AttrCache.StorageAttr` | component/azstorage/block_blob.go:448-552 | the same for both ways of looking up |
| `AttrCache.AttrCache.GetAttr` | component/attr_cache/attr_cache.go:466-511 | for every cache, right or not: a current valid entry is the answer and the storage is not asked; otherwise it is asked, the answer is the storage's exactly when no listing misled, that is gave up or dropped a path that is there, and the entry then agrees with the storage, room permitting; if and only if: with a right cache the answer is right, and the cache stays so, exactly when no listing misled; no other entry changes; it fails only when a call did |
| `AttrCache.AttrCache.LookUpAll` | component/attr_cache/attr_cache.go:466-511 | recovery: whatever was wrong with the cache, it agrees with the storage again once the wrong entries have expired and been looked up, unless a call fails or there is no room |
| `AttrCache.AttrCache.CacheAttributes` | component/attr_cache/attr_cache.go:284-303 | what a listing says, virtual directories among it, is cached, room permitting, and agrees with the storage; no other entry changes |
| `AttrCache.AttrCache.CreateDir` | component/attr_cache/attr_cache.go:231-241 | the storage has the directory, and exactly when the cache agrees with it; it fails only when the call did |
| `AttrCache.AttrCache.ChangeFile` | component/attr_cache/attr_cache.go:327-338 | for operations that create or replace a file: the storage has it, and exactly when the cache agrees; it fails only when the call did |
| `AttrCache.AttrCache.WriteFile` | component/attr_cache/attr_cache.go:372-394 | the same for operations that look the file up first; success sets right what a misleading lookup cached, failure leaves it |
| `AttrCache.AttrCache.DeleteFile` | component/attr_cache/attr_cache.go:341-352 | the file is gone, the entry says so, and exactly when the cache agrees; unless a call fails, success exactly when the file was there |
| `AttrCache.AttrCache.RenameFile` | component/attr_cache/attr_cache.go:355-369 | all outcomes of the copy and the delete, and for each exactly when the cache agrees; a whole rename leaves the source's attributes under the new name and nothing under the old; unless a call fails it is whole, and succeeds exactly when the source was there |
| `AttrCache.AttrCache.DeleteDir` | component/attr_cache/attr_cache.go:244-257 | whatever part of the directory the storage deleted or left, and whatever it reported: exactly when the cache agrees; unless a call fails nothing is left, and success is reported exactly when there was a marker |
| `AttrCache.AttrCache.RenameDir` | component/attr_cache/attr_cache.go:307-324 | whatever part of the directory the storage moved or left: exactly when the cache agrees; a complete rename finds every `src/rest` as `dst/rest` and the marker as the marker, with their attributes, nothing else new, and nothing in the source; unless a call fails it is complete, and succeeds exactly when the source was there |
| `AttrCache.AttrCache.SyncDir` | component/attr_cache/attr_cache.go:453-463 | the directory's entries are read again, and the cache agrees as before |
| `AttrCache.AttrCache.TruncateFile` | component/attr_cache/attr_cache.go:397-412 | if and only if: when the cache still agrees with the storage; unless a call fails, success exactly when the file was there |
| `AttrCache.AttrCache.DeleteBlobs` | component/azstorage/block_blob.go:326-350 | blob by blob, with errors only logged: nothing outside the directory changes, and success without such an error leaves nothing in it; unless a call fails nothing is left, and success is reported exactly when there was a marker |
| `AttrCache.AttrCache.RenameBlob` | component/azstorage/block_blob.go:353-409 | copied and deleted, not found, or refused with or without the copy; the delete follows an aborted copy too, and then only an empty blob is left |
| `AttrCache.AttrCache.RenameBlobs` | component/azstorage/block_blob.go:412-446 | blob by blob: nothing outside the two directories changes, and success without an error or an aborted copy finds every blob, and nothing else new, under `dst/rest` for `src/rest`, whether the source has a marker or not; unless a call fails that is what happens, exactly when there was anything |
| `AttrCache.MovesAll` | component/azstorage/block_blob.go:412-446 | blob by blob or in plain words: a complete rename takes each `src/rest` to `dst/rest`, the marker to the marker, brings nothing else and leaves nothing behind |
| `AttrCache.MarkedMoveDir` | component/azstorage/block_blob.go:412-446 | a complete rename to a free place outside the directory keeps a marker in every directory |
| `AttrCache.MissingParentStale` | component/attr_cache/attr_cache.go:327-338 | creating a file leaves its directory cached as missing |
| `AttrCache.Session` | component/attr_cache/attr_cache.go:231-511 | every run in which the storage does all or nothing of each operation and no listing misleads, without virtual directories, or with them from a marker in every directory on: markers stay, the cache agrees, and every lookup says what the storage holds; in every run at all, a lookup whose entry has expired says what the storage holds unless its listing misled, and when no storage call fails every operation ends as it should |
| `AttrCache.VirtualParentStale` | component/attr_cache/attr_cache.go:341-352 | deleting the last file of a directory without marker leaves the directory cached |
| `DirPaging.StreamDir` | component/azstorage/azstorage.go:283-332 | the page at the token, skipping empty pages, so that an empty answer means the end; if and only if: it fails exactly when the list call for that page did |
| `DirPaging.DirHandle.ReadDir` | component/libfuse/libfuse_handler.go:493-562 | the next entries of the listing, as many as there is room for or the page has, none exactly at the end; it fails, with nothing changed, only when the list call for the next page did |
| `DirPaging.DirHandle.Fill` | component/libfuse/libfuse_handler.go:546-559 | entries in order, exactly until the caller has no room or the page ends |
| `DirPaging.Scan` | component/libfuse/libfuse_handler.go:493-562 | a forward scan with any page split and any room returns every entry once, in order, or a prefix and an error when a list call failed |
| `LruCache.LruCache.Get` | common/cache_policy/lru_policy.go:69-78 | a hit moves exactly that block to the front |
| `LruCache.LruCache.Resize` | common/cache_policy/lru_policy.go:81-91 | exactly that block's end changes and the bytes held follow |
| `LruCache.LruCache.Remove` | common/cache_policy/lru_policy.go:137-150 | exactly that block goes and the bytes held follow |
| `LruCache.LruCache.Evict` | common/cache_policy/lru_policy.go:168-183 | the least recently used block without unsaved changes goes, or all have some |
| `LruCache.LruCache.Put` | common/cache_policy/lru_policy.go:94-111 | if and only if: refused exactly when there is no room and every block has unsaved changes; room is made first; list and map agree afterwards exactly when the key was not cached or was the one evicted; every other block keeps its place on the map |
| `LruCache.PutBounded` | common/cache_policy/lru_policy.go:94-111 | with blocks of one size the cache stays below its capacity plus one block |
| `LruCache.PutAll` | common/cache_policy/lru_policy.go:94-111 | any run of puts of new keys with blocks of one size keeps list and map in step and the cache below its capacity plus one block |

## Left out

- BlockOffsetList.FindBlocks, SmallFile and the readers of the handle's own block list: only reads of the same list.
- CreateNewBlocks: not for a list that is already full when no block size is configured; the program then divides by zero
  in floating point and converts infinity to an integer, whose value the language leaves open. PlanWrite, WriteBlocks,
  GrowBlocks, Write and TruncateFile inherit this when they append, and RunEdits stops there.
- PlanWrite: not for an empty write exactly at the end of a block list, where the program panics; nor WriteBlocks and Write.
- Write: requires, in the block branch, distinct block ids, no empty block and no other copy under a committed id that
  the write does not stage again; KeptUnlessOther and RepeatedIdsBreakEdit say why. WriteBlocks requires the same.
- TruncateFile: requires the same of its block branch, for the blocks that it keeps whole, as ShrinkBlocks, TruncateBlocks
  and GrowBlocks do. A failed attribute lookup that is not "not found" makes the program panic unless the size is 0; the
  model then reports a failure. A lookup that succeeds gives the right size.
- RunEdits: requires edits that WriteMeetsPwrite and TruncateEmpty say are carried out as asked.
- Writer: appends to a newly created file only; overwriting, sparse writes and reads through the same handle are left out.
- Reader: no disk cache, and the file does not change while it is read.
- Blocks of the block cache are values in the pool's memory addressed by references, not heap objects, and the list
  node that a block remembers is its position in the list.
- OnReader: an operation of one handle is one step for all other handles, with their workers' steps before and after it;
  the same for OnWriter.
- CloseFile: the release loops of a writer's handle are not modelled, because its lists are empty by then.
- CacheValidate: the program looks the file up in the map before it takes the lock, and stores a new node there; the model
  takes both and the relinking as one step, so a purge in between, which leaves a listed node off the map, is not covered.
- RemoveNode: the same for its lookup and deletion from the map.
- Replay: its operations are atomic in the same sense; passes and sweeps are not.
- LruPolicy: the channels between callers and the policy goroutines, disk-usage thresholds and the deletion of the local
  file by deleteItem; the last is a step of OpenHandles.
- LfuPolicy: timers and `lfuList.size`, which the program does not keep consistent.
- OpenHandles: DeleteFile, RenameFile, the fsync branch of CloseFile and a non-zero refresh interval.
- AttrCache: times, modes, metadata, symbolic-link flags and aliasing of cached attributes. The storage call and the update
  of the cache after it are one step. A call for one blob that fails has changed nothing, except for a rename. A listing
  never fails with "blob not found".
- RenameDir: names are given without trailing slash, as the FUSE layer gives them; blobs that arrive in the source while
  the directory is being renamed into itself, which the kernel refuses, are not listed again.
- DirPaging: rewinding to offset 0 in the middle of a scan, and the delay before listing is allowed.
- LruCache: Purge, and Put into an empty cache of no capacity, which panics.
- Integer widths, except for the 64-bit use counts and the 32-bit handle count: sizes and offsets are unbounded.
- HTTP, authentication, configuration, statistics, logging, FUSE marshalling and the data-lake endpoint.

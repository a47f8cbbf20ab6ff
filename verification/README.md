# The protocols of the datalineup engine, in Dafny

The engine runs jobs that take items from inventories through pipelines, on workers that a manager
hands queues to. Its correctness rests on a few small protocols. This project models them, each as
the code does it, and proves what they keep. Code that changes objects in place is a class or a
method with loops, proved against a function of the state; the steps that the event loop interleaves
are events of a state machine, and the main results hold for every run of it.

- **Cursors and recovery.** `Cursors` is the ordered dictionary of pending items and the prefix that
  is committed. `Resume` runs it over any source with any number of crashes. `Inventories` connects
  the source law to `iterate`, `run` and the static inventory. `Join` has the two levels of a join:
  a root cursor and one cursor for each unfinished parent.
- **The write-behind store.** `JobStates` is the buffer of a worker with its merge, `JobsStore` the
  tables that a flush updates, `StateSync` whole runs of writes and of flushes that fail at any point,
  `FlushPlans` for which writes they all end well.
- **Calls that are put together.** `Throttle` is the delayed call with its shared future, `Fetcher`
  the fetch of cursor states that is made through it.
- **Exclusive resources.** `Resources` is the pools and the acquisition of several types, `Acquiring`
  the steps of tasks that wait for each other, `Deadlock` why they get on.
- **Merging inputs.** `CreditScheduling` (in `Credits.dfy`) is the choice of inputs by credits,
  `FanIn` the loop that merges them, `FairFanIn` both together, `Buffering` the batches of one input.
- **Assignment of work.** `Lease` is `lock_jobs` over the table of queues, `Handouts` what a call does in
  terms of the rows alone, `Leases` runs of calls by any workers, `WorkSync` the worker that follows the
  responses.
- **Two accounting loops.** `Traceback` folds runs of frames, `Usage` adds up the time of messages.

`Options` and `Sets` hold what these share.

## Where a property fails

Some properties do not hold of the code as it is. The project keeps the code, and proves when the
property holds.

- A flush of the throttle that finds the function running waits for that invocation alone, and does not
  cover calls delayed behind it, so closing the job state service can miss the last writes:
  `Throttle.FlushCoversIff` and `Throttle.FlushMissesACall`.
- A job that is completed without an error after it failed: in one batch the completion overwrites the
  failure and the error never reaches the server, and over two batches the server keeps the error. What
  it has depends on where the flush falls: `StateSync.OneFlushIsFaithfulIff` and `FlushPlans.FaithfulIff`.
- Jobs of one definition share the namespace of their states, and a batch writes them in the order in
  which it first saw the jobs. Jobs that run one after the other are safe (`StateSync.OneByOneIsOrderly`);
  exactly which others are not is `StateSync.KeepsSlotIff` and `FlushPlans.FaithfulIff`. PostgreSQL
  would refuse two rows of one key in a single upsert; that is not part of this model.
- Two cursors with the same formatted key share one answer: `Fetcher.FetchAnswersIff` and
  `Fetcher.HashedCursorHidesAnother`.
- A resource that is removed, and added again under its name while somebody holds it, is handed out
  twice, as each add makes a new object: `Acquiring.AddIsExclusiveIff`, `Acquiring.AddedIsShared` and
  `Acquiring.ReaddedIsShared`.
- A request that names a type twice can wait for itself: `Deadlock.DeadlocksIff`.
- A queue whose definition moves to another executor loses its executor when the old one goes:
  `WorkSync.ServedIff` and `WorkSync.MovedQueueIsLost`. A sync in which building a provider raises is
  lost, with the queues it would have added: `WorkSync.LostSyncIff` and `WorkSync.LostForGood`.
- A response can have resources of a queue that is not handed out, because its executor is missing:
  `Lease.ResourcesAre` says which, and `Lease.StrayResource` is one.
- Partials are saved up to a limit, 100 unless it is set, and what does not fit is forgotten and yielded
  again after a restart: `Resume.SavedExactIff`, `Resume.SavedCursorIsExactIff` and `Resume.UnfitForgets`.
- A source is read again from its start after a batch whose last item has no cursor, which need not
  end: `Inventories.PagesAreInOrderIff` and `Inventories.NamelessItemRepeats`.
- An error of an iterator ends `async_buffered` as if the iterator had ended, since the result of its
  task is not looked at, and the items behind the error are lost: `Buffering.EndedHasAllIff`,
  `Buffering.ErrorIsSilent` and `Buffering.ErrorLosesItems`.
- The messages of a stage are in a weak set, and one that is let go without `pop` takes the time since
  the last flush with it: `Usage.TimeIsCountedOrLost`, `Usage.NoTimeIsLostIff` and
  `Usage.DroppedIsNotCounted`.
- The saved cursor of a plain inventory with partials is no cursor of a join: it is loaded, with a
  list where a dictionary is needed, and raises later: `Join.MultiCursorsState.ProcessRoot`,
  `Join.MultiCursorsState.ProcessSub` and `Join.MultiCursorsState.CursorOf`.

## Model

| member | source | states |
|---|---|---|
| `Cursors.SaveThenLoad` | src/datalineup_engine/worker/inventory.py:113-171 | What `as_cursor` saves, the position and the set of partials, is what `from_cursor` reads back. |
| `Cursors.SavedWithinLimit` | src/datalineup_engine/worker/inventory.py:149-165 | Under a limit, at most that many partials are saved, and only cursors that the state holds. |
| `Cursors.SavesTheFirst` | src/datalineup_engine/worker/inventory.py:155-160 | Under a limit, the finished items beyond the prefix are saved in their order, as many as the limit allows. |
| `Cursors.FitSavesAll` | src/datalineup_engine/worker/inventory.py:149-165 | Where the limit has room for the partials that were loaded and the finished items, all of both are saved. |
| `Cursors.SavesUpToTheLimit` | src/datalineup_engine/worker/inventory.py:155-160 | And where it has not, the saved set is as large as the limit. |
| `Cursors.DonePrefix` | src/datalineup_engine/worker/inventory.py:185-190 | The entries before the result are all done, and the entry at it is pending. |
| `Cursors.MarkDone` | src/datalineup_engine/worker/inventory.py:183 | Marking an entry as done changes no other entry and moves none: the dictionary keeps its insertion order. |
| `Cursors.CursorsState.FromCursor` | src/datalineup_engine/worker/inventory.py:113-142 | A fresh object in the state that the cursor denotes, with nothing pending. |
| `Cursors.CursorsState.EnterItem` | src/datalineup_engine/worker/inventory.py:173-181 | The item is pending behind all others; an item that the partials name is not to be processed, and its partial is used up. |
| `Cursors.CursorsState.ExitItem` | src/datalineup_engine/worker/inventory.py:182-200 | The item is done, the longest done prefix is dropped, and its last usable cursor is committed. |
| `Cursors.CursorsState.AsDict` | src/datalineup_engine/worker/inventory.py:144-167 | The saved fields are the committed cursor and a set of partials that the limit allows. |
| `Cursors.CursorsState.AsCursor` | src/datalineup_engine/worker/inventory.py:169-171 | The cursor is the dump of such fields, or nothing when there is nothing to save. |
| `Cursors.CollectDone` | src/datalineup_engine/worker/inventory.py:185-190 | The loop gathers exactly the items before the first pending entry, in order. |
| `Cursors.CommitLast` | src/datalineup_engine/worker/inventory.py:196-200 | The reversed loop commits the last usable cursor of the finished stretch, or keeps the old one. |
| `Cursors.TakeSome` | src/datalineup_engine/worker/inventory.py:156-160 | `set(islice(s, n))` is a subset with `n` elements, or all when there are fewer. |
| `Resume.PositionOfCommitted` | src/datalineup_engine/worker/inventory.py:196-200 | Going on from the committed cursor goes back to an item no later than the committed prefix, with no usable cursor in between, so that no item is passed over. |
| `Resume.RemainingIsIncreasing` | src/datalineup_engine/worker/inventory.py:240-254 | What a resumed run is to yield is in source order, each item once. |
| `Resume.ResumedInv` | src/datalineup_engine/worker/inventory.py:113-142 | A run that starts from any saved position whose denotation was finished starts in a good state. |
| `Resume.ExitKeeps` | src/datalineup_engine/worker/inventory.py:182-200 | Leaving an item in any order keeps the pending entries equal to the items taken after the committed prefix, done or not as they are. |
| `Resume.SavedSound` | src/datalineup_engine/worker/inventory.py:144-171 | Whatever the limit, every item that a saved cursor names was finished. |
| `Resume.SavedComplete` | src/datalineup_engine/worker/inventory.py:144-171 | With a cursor on every item, a saved cursor names every finished item where the limit had room. |
| `Resume.SavedExactIff` | src/datalineup_engine/worker/inventory.py:144-171 | A saved cursor denotes exactly what is done, if and only if the limit had room for it. |
| `Resume.UnfitForgets` | src/datalineup_engine/worker/inventory.py:155-160 | Where it had not, there is a finished item that the saved cursor does not name. |
| `Resume.StepInv` | src/datalineup_engine/worker/inventory.py:173-200 | Every pull, finish and restart keeps the invariant of a run. |
| `Resume.StepRemembers` | src/datalineup_engine/worker/inventory.py:113-171 | With a cursor on every item, a restart forgets no finished item where the limit had room. |
| `Resume.ExecutionInv` | src/datalineup_engine/worker/inventory.py:173-254 | The invariant holds in every state of every run, with any number of crashes. |
| `Resume.BoundedPartialsAreSafe` | src/datalineup_engine/worker/inventory.py:144-200 | For any limit, finish order, crashes and items without a cursor: the committed cursor is the last of the longest finished prefix (or the starting value), at most the limit is saved, and whatever a resumed run would skip was finished. |
| `Resume.SavedCursorIsExactIff` | src/datalineup_engine/worker/inventory.py:113-200 | With a cursor on every item, and as long as the restarts found all in their cursors: the cursor saved at any moment of any run denotes exactly what is finished, if and only if the limit has room for it. |
| `Resume.ResumeYieldsTheRest` | src/datalineup_engine/worker/inventory.py:240-254 | Since the last restart, `run` has yielded exactly the items taken that the cursor did not name, in source order, once each; where the limit had room these are the unfinished ones. |
| `Resume.PlainCursor` | src/datalineup_engine/worker/inventory.py:121-133 | A plain cursor, of the old format, denotes its item and all before it, and nothing else. |
| `Resume.GoesOn` | src/datalineup_engine/worker/inventory.py:240-254 | A run goes on to the end of its source, and until every item it took has finished. |
| `Resume.CanRestart` | src/datalineup_engine/worker/inventory.py:144-171 | At any moment it can end, and be resumed from what it saved. |
| `Resume.CursorOfAJoin` | src/datalineup_engine/worker/inventory.py:113-142 | A saved cursor of a join, read by a plain inventory: the parents with a record count as partials. |
| `Inventories.BatchAdvances` | src/datalineup_engine/worker/inventory.py:213-238 | A batch is the next stretch of the source and, when its last item has a cursor, leads to the position behind it; only at the end is it empty. |
| `Inventories.Iterate` | src/datalineup_engine/worker/inventory.py:218-238 | However many batches are read, whatever the batch size, the cursors and the retries: the items are those of the batches in turn, one batch for each call that answers; the loop ends where a batch is empty, and fails exactly at the first call before which as many calls in a row raised as it allows retries. |
| `Inventories.PagesAreInOrderIff` | src/datalineup_engine/worker/inventory.py:215-238 | However far it is read, the source gives the items behind the cursor in order and once each, if and only if every batch ends with an item that has a cursor. |
| `Inventories.IterateGivesTheRest` | src/datalineup_engine/worker/inventory.py:218-238 | And then the items given are a prefix of those behind the cursor, the end comes with the last of them, and there are no more batches than items. |
| `Inventories.NamelessItemRepeats` | src/datalineup_engine/worker/inventory.py:235-238 | The run that shows it: the one item of a source, without a cursor, is given again and again without an end. |
| `Inventories.NamelessEndRestarts` | src/datalineup_engine/worker/inventory.py:236-238 | After a batch whose last item has no cursor, the source is asked from its start again. |
| `Inventories.Decimal` | src/datalineup_engine/worker/inventories/static.py:23-28 | `int` reads back what `str` writes of an index. |
| `Inventories.StaticSourceIsWellFormed` | src/datalineup_engine/worker/inventories/static.py:26-29 | The items of a static inventory have distinct, usable cursors. |
| `Inventories.StaticObeysSourceLawAtStart` | src/datalineup_engine/worker/inventories/static.py:22-29 | With no cursor, `next_batch` is the whole source. |
| `Inventories.StaticObeysSourceLaw` | src/datalineup_engine/worker/inventories/static.py:22-29 | With the cursor of any item, `next_batch` is what follows that item: the source law that resuming rests on. |
| `Inventories.RepeatingNeverEnds` | src/datalineup_engine/worker/inventories/static.py:24-31 | A repeating inventory with items gives the rest of its list, and behind the last item the whole list again. |
| `Inventories.InventoryRun.constructor` | src/datalineup_engine/worker/inventory.py:240-243 | A run starts in the state that its cursor denotes, whatever the cursor is. |
| `Inventories.InventoryRun.Pull` | src/datalineup_engine/worker/inventory.py:243-251 | Taking an item is a step of the machine; a skipped item is left at once. |
| `Inventories.InventoryRun.Next` | src/datalineup_engine/worker/inventory.py:243-254 | The generator yields the next item that is not skipped, or ends with the source. |
| `Inventories.InventoryRun.Finish` | src/datalineup_engine/worker/inventory.py:182-200 | The exit of a yielded item is a step of the machine. |
| `Join.MultiCursorsState.FromCursor` | src/datalineup_engine/worker/inventories/multi.py:73-97 | A fresh object in the state that the cursor denotes; from the cursor of a plain inventory its partials are the list that this one has. |
| `Join.MultiCursorsState.ProcessRoot` | src/datalineup_engine/worker/inventories/multi.py:122-129 | Leaving a parent takes over the cursor of the root, removes the record of the parent and keeps every other; it raises exactly for a list and a parent with a cursor, and then has taken over the cursor. |
| `Join.MultiCursorsState.ProcessSub` | src/datalineup_engine/worker/inventories/multi.py:138-146 | Leaving a child records the cursor of its run under the parent, unless one of the two is missing; it raises exactly for a list and two cursors, and then changes nothing. |
| `Join.MultiCursorsState.CursorOf` | src/datalineup_engine/worker/inventories/multi.py:148-152 | The children of a parent resume from the cursor recorded for it, or from the start; it raises exactly for a list and a parent with a cursor. |
| `Join.MultiCursorsState.AsCursor` | src/datalineup_engine/worker/inventories/multi.py:99-108 | What is saved is loaded as the same two-level state; a list is saved as the list it is. |
| `Join.OtherCursors` | src/datalineup_engine/worker/inventories/multi.py:122-152 | An exit changes the recorded cursor of no other parent. |
| `Join.PermitsStep` | src/datalineup_engine/worker/inventories/joined.py:82-108 | At most `root_concurrency` parents hold a permit, and exactly those that are scheduled or run. |
| `Join.StepInv` | src/datalineup_engine/worker/inventories/joined.py:74-138 | Every event of the two levels keeps the invariant that ties the places of the parents, both kinds of cursors and the history. |
| `Join.ExactStep` | src/datalineup_engine/worker/inventories/joined.py:74-138 | Where the limits have room, every event also keeps the recorded cursors exact. |
| `Join.OnlyUnfinishedParents` | src/datalineup_engine/worker/inventories/multi.py:122-146 | Whatever the limits, in every state of every run: the saved cursor has a record of no parent that is done, and every record is that of a parent that is not. |
| `Join.ExecutionInv` | src/datalineup_engine/worker/inventories/joined.py:74-138 | The invariant in every state of every run, with any number of crashes. |
| `Join.JoinSavedSound` | src/datalineup_engine/worker/inventories/joined.py:124-142 | Whatever the limits and the order of events, a (parent, child) pair that the saved cursor names was finished, and no more parents than the limit are under way. |
| `Join.JoinSavedExact` | src/datalineup_engine/worker/inventories/joined.py:124-142 | With a cursor on every item, and as long as the limits had room for what was saved, the saved cursor names exactly the finished pairs. |
| `Join.CompleteYields` | src/datalineup_engine/worker/inventories/joined.py:74-138 | When the root is exhausted and all runs of children are over, every pair was yielded or named by the cursor. |
| `Join.JoinResumeYieldsTheRest` | src/datalineup_engine/worker/inventories/joined.py:74-138 | A resumed join that completes has yielded, parent by parent in source order, exactly the pairs that its cursor did not name, once each; where the limits had room exactly the unfinished ones. |
| `Join.PlainRootCursor` | src/datalineup_engine/worker/inventories/multi.py:73-97 | A join that starts from the cursor of a plain inventory without partials goes on from it in the root, and has no records. |
| `Join.RunsAtOnce` | src/datalineup_engine/worker/inventories/joined.py:74-108 | As many runs of children as there are permits can be under way at once. |
| `Join.NeverHalts` | src/datalineup_engine/worker/inventories/joined.py:74-138 | With at least one permit, in every reachable state that is not complete some event other than a crash can happen. |
| `JobStates.MergeIsFold` | src/datalineup_engine/worker/services/job_state/store.py:27-51 | Merging the contents of the buffers of two stretches of writes is that of both. |
| `JobStates.MergeIsBuffer` | src/datalineup_engine/worker/services/job_state/store.py:45-51 | And the merged dictionary has the jobs in the order of their first writes. |
| `JobStates.EmptyCursorIsLost` | src/datalineup_engine/worker/services/job_state/store.py:28-29 | An empty cursor breaks this: a concrete run of two writes. |
| `JobStates.FoldHoldsLastState` | src/datalineup_engine/worker/services/job_state/store.py:85-92 | The buffer holds for every state the value of its last write, and no other state. |
| `JobStates.LastStateSplit` | src/datalineup_engine/worker/services/job_state/store.py:114-121 | The last write of two stretches is that of the second, or else of the first. |
| `JobStates.GetStates` | src/datalineup_engine/worker/services/job_state/store.py:57-63 | A lookup returns exactly the requested states that are there, with their values. |
| `JobStates.JobStateObject.Merge` | src/datalineup_engine/worker/services/job_state/store.py:27-36 | The merge in place: the object has the merged value, and the other is unchanged. |
| `JobStates.JobsStates.MergeOne` | src/datalineup_engine/worker/services/job_state/store.py:46-50 | One job is merged where it stands, or its object is taken over behind the others, and the others stay. |
| `JobStates.JobsStates.Merge` | src/datalineup_engine/worker/services/job_state/store.py:45-51 | The whole merge in place equals the merge of the two values, with the order of the keys. |
| `JobStates.JobsStates.Record` | src/datalineup_engine/worker/services/job_state/store.py:71-92 | A setter changes the state of its job only. |
| `JobStates.JobsStatesSyncStore.Record` | src/datalineup_engine/worker/services/job_state/store.py:71-92 | A setter writes to the current buffer, never to the one being flushed. |
| `JobStates.JobsStatesSyncStore.BeginFlush` | src/datalineup_engine/worker/services/job_state/store.py:101-105 | The current buffer becomes the flushed one, and a new one is empty. |
| `JobStates.JobsStatesSyncStore.AbortFlush` | src/datalineup_engine/worker/services/job_state/store.py:106-109 | The flushed buffer is restored, with the later writes merged over it. |
| `JobStates.JobsStatesSyncStore.GetLocalStates` | src/datalineup_engine/worker/services/job_state/store.py:114-121 | A read takes the current buffer first and the flushed one for what is missing. |
| `StateSync.RowThenWrite` | src/datalineup_engine/stores/jobs_store.py:137-148 | One update for two writes equals two updates, except for an error that the second write takes back, where it differs. |
| `StateSync.RowsThrough` | src/datalineup_engine/stores/jobs_store.py:137-180 | The update of a job by a batch is that of its writes one by one. |
| `StateSync.SeenLastWins` | src/datalineup_engine/stores/jobs_store.py:150-173 | A batch leaves in a slot the last write of the job that was seen last among its writers. |
| `StateSync.KeepsSlotIff` | src/datalineup_engine/stores/jobs_store.py:150-173 | For each slot: the batch leaves the last write, if and only if the job of the last write was seen last among the writers of the slot, or wrote the same value. |
| `StateSync.StatesThroughIff` | src/datalineup_engine/stores/jobs_store.py:150-175 | The upsert of a batch is that of its writes one by one, if and only if this holds for every slot. |
| `StateSync.BatchIsWriteThrough` | src/datalineup_engine/stores/jobs_store.py:114-180 | One batch then does to all tables what its writes do one by one. |
| `StateSync.OneByOneIsOrderly` | src/datalineup_engine/worker/services/job_state/store.py:94-109 | Jobs of one definition that run one after the other meet the condition, in every stretch of their writes. |
| `StateSync.WriteThroughTwice` | src/datalineup_engine/stores/jobs_store.py:166-180 | Applying the same writes again changes nothing. |
| `StateSync.Replay` | src/datalineup_engine/worker/services/job_state/store.py:106-109 | A server that already has a part of a restored batch ends as if it had got every write once, in order. |
| `StateSync.BuffersStep` | src/datalineup_engine/worker/services/job_state/store.py:94-109 | Every write, flush, success and failure keeps the two buffers equal to the folds of the writes they stand for. |
| `StateSync.ServerStep` | src/datalineup_engine/worker/services/job_state/store.py:94-109 | And keeps the server equal to a prefix of the writes. |
| `StateSync.NoWriteIsLostOrReordered` | src/datalineup_engine/worker/services/job_state/store.py:94-109 | Whichever flushes fail, before or after the server applied the batch, for writes of which every stretch keeps its slots: the server, with the batch in flight and the buffer applied on top, is what writing everything straight through gives. |
| `StateSync.SettledServerHasAll` | src/datalineup_engine/worker/services/job_state/store.py:94-109 | Between flushes and with nothing buffered, the server has all the writes, in order. |
| `StateSync.LocalReadsAreNeverStale` | src/datalineup_engine/worker/services/job_state/store.py:114-121 | A local read returns a value for every requested state with an unacknowledged write, and any value it returns is the newest written. |
| `StateSync.OneFlushIsFaithfulIff` | src/datalineup_engine/stores/jobs_store.py:139-142 | One flush is faithful to the jobs table wherever it comes, if and only if no job is completed after it failed: in one batch the error is overwritten, while the server keeps one it has. |
| `StateSync.HiddenError` | src/datalineup_engine/stores/jobs_store.py:139-142 | For any such pair of writes in one batch the error never reaches the server. |
| `FlushPlans.FaithfulIff` | src/datalineup_engine/worker/services/job_state/store.py:94-109 | Whenever the worker flushes and whichever flushes fail, the settled server has all writes in order, if and only if no job is completed after it failed and every stretch of the writes keeps its slots. |
| `FlushPlans.FailedFlush` | src/datalineup_engine/worker/services/job_state/store.py:95-109 | A flush can fail before or after the server applied it, and leaves all that it held to the next one. |
| `FlushPlans.EmptyFlush` | src/datalineup_engine/worker/services/job_state/service.py:254-258 | A flush with nothing to send sends nothing. |
| `FlushPlans.BadPlan` | src/datalineup_engine/worker/services/job_state/store.py:94-109 | For any other writes, a run of flushes after which the server differs. |
| `FlushPlans.StretchIsSeen` | src/datalineup_engine/stores/jobs_store.py:150-173 | A stretch that does not keep a slot, flushed as one batch, leaves another value there on every server. |
| `StateSync.SharedNamespaceReorders` | src/datalineup_engine/stores/jobs_store.py:150-173 | Two jobs of one definition: three writes after which the server keeps an overwritten value. |
| `JobsStore.ValuesAre` | src/datalineup_engine/stores/jobs_store.py:133-164 | The lists hold the columns of exactly the jobs that have some, and the queues of exactly the jobs that are over. |
| `JobsStore.ColumnsSet` | src/datalineup_engine/stores/jobs_store.py:177-178 | The updates, one after the other, set the columns of each listed job and of no other. |
| `JobsStore.AcceptsIff` | src/datalineup_engine/stores/jobs_store.py:177-178 | The updates find all their rows, if and only if every job with columns to set has a row. |
| `JobsStore.RowsAreUpdated` | src/datalineup_engine/stores/jobs_store.py:177-180 | After the updates and the disabled queues, each row is what the batch says. |
| `JobsStore.Database.Collect` | src/datalineup_engine/stores/jobs_store.py:133-164 | The loop over the batch fills the three lists; the rows to upsert are those of the specification. |
| `JobsStore.Database.AppendStates` | src/datalineup_engine/stores/jobs_store.py:151-158 | The inner loop adds the rows of one job, whatever the order of its states. |
| `JobsStore.Database.UpdateJobs` | src/datalineup_engine/stores/jobs_store.py:177-178 | It raises exactly where a row is missing, and otherwise sets the columns. |
| `JobsStore.Database.SyncJobsStates` | src/datalineup_engine/stores/jobs_store.py:114-180 | The whole call changes the tables to those after the batch, or, where it raises, not at all. |
| `Throttle.StepInv` | src/datalineup_engine/utils/asyncutils.py:207-253 | Every call, wake-up and return keeps the invariant of tasks, parameters, runs and futures. |
| `Throttle.ExecutionInv` | src/datalineup_engine/utils/asyncutils.py:207-253 | The invariant in every state of every run. |
| `Throttle.OneTaskWithNewestParams` | src/datalineup_engine/utils/asyncutils.py:207-253 | At most one delayed task exists, so the function never overlaps itself, and each invocation has the parameters of the newest call before it. |
| `Throttle.NewestCallIsNeverDropped` | src/datalineup_engine/utils/asyncutils.py:207-253 | A call that no invocation covers yet has its own or later parameters delayed by a live task; with no task, every call is covered. |
| `Throttle.FuturesAreSettledByTheirRun` | src/datalineup_engine/utils/asyncutils.py:214-245 | A future is settled once, by the first invocation after its call, and no other has it; until then a task is there to settle it. |
| `Throttle.WorkEnds` | src/datalineup_engine/utils/asyncutils.py:221-253 | While something is delayed the task can go on, and each of its steps leaves less to do. |
| `Throttle.FlushCoversIff` | src/datalineup_engine/utils/asyncutils.py:264-269 | When `flush` returns, the calls before it are covered, if and only if it was not made while the function ran with newer parameters delayed. |
| `Throttle.FlushMissesACall` | src/datalineup_engine/utils/asyncutils.py:264-269 | The run that shows it: call, start, call, `flush`, return. |
| `Throttle.DelayedThrottle.CallNowait` | src/datalineup_engine/utils/asyncutils.py:207-212 | The parameters are the newest, and a task is made only when there is none. |
| `Throttle.DelayedThrottle.Call` | src/datalineup_engine/utils/asyncutils.py:214-219 | The shared future is returned, a new one only when there is none. |
| `Throttle.DelayedThrottle.AfterWait` | src/datalineup_engine/utils/asyncutils.py:228-240 | The task takes the delayed parameters and the future, or ends where there are none. |
| `Throttle.DelayedThrottle.AfterFunction` | src/datalineup_engine/utils/asyncutils.py:247-253 | The task is over, and a call made meanwhile is delayed anew. |
| `Fetcher.FromCursors` | src/datalineup_engine/worker/services/job_state/service.py:66-79 | The loop fills the two dictionaries: each cursor with its keys, each key with the last cursor that has it. |
| `Fetcher.ByFormattedKeys` | src/datalineup_engine/worker/services/job_state/service.py:72-82 | Every key of a cursor is asked for, and is taken for a cursor that has it. |
| `Fetcher.MappedIff` | src/datalineup_engine/worker/services/job_state/service.py:116-124 | A cursor is in the result exactly when an answered key is taken for it, with the state of such a key. |
| `Fetcher.FetchAnswersEachCursor` | src/datalineup_engine/worker/services/job_state/service.py:101-124 | Under injective formatting, a cursor is answered just when the server has a state under one of its keys, and with such a state. |
| `Fetcher.FetchAnswersIff` | src/datalineup_engine/worker/services/job_state/service.py:66-124 | This holds for every answer of the server, if and only if no key belongs to two cursors of the request. |
| `Fetcher.HashedCursorHidesAnother` | src/datalineup_engine/worker/services/job_state/service.py:66-124 | A request with a cursor and the hash of it, in both formats: the state of the first is not returned. |
| `Fetcher.QueriesStep` | src/datalineup_engine/worker/services/job_state/service.py:101-131 | The pending queries hold the cursors of every call that no run covers, and each batch those of the calls it covers. |
| `Fetcher.SettledByItsBatch` | src/datalineup_engine/worker/services/job_state/service.py:126-131 | A `fetch` is resolved by a run whose batch held all its cursors. |
| `Fetcher.CoalescedFetchIsSound` | src/datalineup_engine/worker/services/job_state/service.py:101-131 | And what it returns for each is the answer of the server for that cursor, when formatting is injective on the batch. |
| `Fetcher.BatchIsItsFetches` | src/datalineup_engine/worker/services/job_state/service.py:101-131 | A batch asks for exactly the cursors that the fetches since the run before asked for. |
| `Resources.PoolOperations` | src/datalineup_engine/worker/resources/manager.py:178-209 | Every operation keeps availables and used disjoint and together equal to the registered objects; taking and giving back is the identity. |
| `Resources.ExclusiveResources.Add` | src/datalineup_engine/worker/resources/manager.py:178-188 | It raises just for a name in use; otherwise the object is registered and available. |
| `Resources.ExclusiveResources.Remove` | src/datalineup_engine/worker/resources/manager.py:190-195 | The object is neither registered, available nor used any more. |
| `Resources.ExclusiveResources.TryAcquire` | src/datalineup_engine/worker/resources/manager.py:197-202 | It finds nothing just when nothing is available; otherwise one available object is used. |
| `Resources.ExclusiveResources.Release` | src/datalineup_engine/worker/resources/manager.py:204-209 | An object in use is available again; any other is ignored. |
| `Resources.UndoLast` | src/datalineup_engine/worker/resources/manager.py:230-239 | Giving back the last of several taken resources undoes the last turn. |
| `Resources.TurnsKeepInv` | src/datalineup_engine/worker/resources/manager.py:232-235 | Taking one after the other keeps every pool well-formed. |
| `Resources.ResourcesManager.Access` | src/datalineup_engine/worker/resources/manager.py:217-219 | The first access of a type makes an empty pool and changes no other. |
| `Resources.ResourcesManager.TryAcquire` | src/datalineup_engine/worker/resources/manager.py:221-222 | A resource of the type is taken, or the pools stay as they are. |
| `Resources.ResourcesManager.Release` | src/datalineup_engine/worker/resources/manager.py:241-242 | The pool of the type takes the resource back, and no other pool changes. |
| `Resources.ResourcesManager.ReleaseAll` | src/datalineup_engine/worker/resources/manager.py:131-139 | The exit stack gives everything back, the last first: the pools are as before. |
| `Resources.ResourcesManager.AcquireMany` | src/datalineup_engine/worker/resources/manager.py:224-239 | Without waiting and delays: one resource of each type, in sorted order, or every pool is as it was; and the latter exactly where a type is asked for more often than it has available resources. |
| `Acquiring.AddIsExclusiveIff` | src/datalineup_engine/worker/resources/manager.py:178-188 | Registering a resource keeps exclusivity of names, if and only if nobody holds one of its type and name, which may have been removed. |
| `Acquiring.AddedIsShared` | src/datalineup_engine/worker/resources/manager.py:178-209 | Wherever a name is added that somebody holds, after any events at all: the next task that asks for the type can take the new object, and two live contexts have that name. |
| `Acquiring.ReaddedIsShared` | src/datalineup_engine/worker/resources/manager.py:178-209 | The run that shows it: a held resource is removed and a new object of its name added, and two tasks hold that name. |
| `Acquiring.TakeKeeps` | src/datalineup_engine/worker/resources/manager.py:151-162 | Handing out an available resource keeps conservation. |
| `Acquiring.TakeIsExclusive` | src/datalineup_engine/worker/resources/manager.py:151-162 | And exclusivity. |
| `Acquiring.GiveBackKeeps` | src/datalineup_engine/worker/resources/manager.py:59-84 | The end of a context, at once or delayed, keeps conservation, also when the resource was removed meanwhile. |
| `Acquiring.GiveBackIsExclusive` | src/datalineup_engine/worker/resources/manager.py:59-84 | And exclusivity. |
| `Acquiring.ContextsStep` | src/datalineup_engine/worker/resources/manager.py:151-209 | Every step of any number of tasks keeps conservation. |
| `Acquiring.ExclusiveStep` | src/datalineup_engine/worker/resources/manager.py:151-209 | And exclusivity, unless it registers a name that somebody holds. |
| `Acquiring.RunConserves` | src/datalineup_engine/worker/resources/manager.py:52-209 | Over any run: available and used objects are disjoint and together the registered ones, each used one is held, and, unless a name was registered while it was held, no two contexts have a resource of one type and name and nobody has that of an available one. |
| `Acquiring.RemovedStaysOut` | src/datalineup_engine/worker/resources/manager.py:190-202 | After it is removed, an object is not available in any later state until an event adds it again. |
| `Deadlock.TasksStep` | src/datalineup_engine/worker/resources/manager.py:224-239 | A task holds live contexts of exactly the first types of its sorted request, in order, and every owned context is in the list of its owner. |
| `Deadlock.WakeupsStep` | src/datalineup_engine/worker/resources/manager.py:151-209 | While a task sleeps, each available resource of its type has a notified task: no step loses a wake-up. |
| `Deadlock.NoWakeupIsLost` | src/datalineup_engine/worker/resources/manager.py:151-209 | Both invariants in every state of every run. |
| `Deadlock.WaitsForLater` | src/datalineup_engine/worker/resources/manager.py:224-239 | In a circular wait, who waits for a type waits for one of the set that waits for a later type. |
| `Deadlock.NoSetIsStuck` | src/datalineup_engine/worker/resources/manager.py:224-239 | No circular wait, whatever the other tasks do: no non-empty set of tasks that ask for no type twice waits for units that are all held within the set. |
| `Deadlock.StandstillIsStuck` | src/datalineup_engine/worker/resources/manager.py:151-239 | As no wake-up is lost, a standstill is a circular wait of all tasks. |
| `Deadlock.NoDeadlock` | src/datalineup_engine/worker/resources/manager.py:224-239 | So tasks that ask for no type twice never come to a standstill: while each wanted type has a registered unit, some task can run or a delayed release is pending. |
| `Deadlock.SomethingHappens` | src/datalineup_engine/worker/resources/manager.py:144-176 | And then some step is possible that needs no new task and no new resource. |
| `Deadlock.TaskMoves` | src/datalineup_engine/worker/resources/manager.py:144-176 | A task that may run takes any resource there is of the type it asks for, waits when there is none, and lets go of what it has when it has all. |
| `Deadlock.LetsGo` | src/datalineup_engine/worker/resources/manager.py:59-72 | A task that holds something may let its last resource go, now or later. |
| `Deadlock.DelayEnds` | src/datalineup_engine/worker/resources/manager.py:59-72 | A delayed release can always happen. |
| `Deadlock.EndLeavesNothing` | src/datalineup_engine/worker/resources/manager.py:224-239 | A task that ends is gone, and no context is its own. |
| `Deadlock.DeadlocksIff` | src/datalineup_engine/worker/resources/manager.py:224-239 | For any sorted request: tasks that all make it can come to a circular wait, and to a standstill, if and only if it names a type twice. |
| `Deadlock.RepeatDeadlocks` | src/datalineup_engine/worker/resources/manager.py:224-239 | The run that shows it: one unit of each type, one task that waits for itself. |
| `CreditScheduling.Cheapest` | src/datalineup_engine/utils/iterators.py:186 | The least cost of the ready inputs is that of one of them, and no ready input costs less. |
| `CreditScheduling.PickedAre` | src/datalineup_engine/utils/iterators.py:191-193 | The picked inputs are exactly the ready ones whose credits reach their priority. |
| `CreditScheduling.PicksTheCheapest` | src/datalineup_engine/utils/iterators.py:183-193 | A round picks exactly the cheapest of the ready inputs, and so at least one. |
| `CreditScheduling.RoundValid` | src/datalineup_engine/utils/iterators.py:161-168 | Credits stay between zero and the priority. |
| `CreditScheduling.Credits.Add` | src/datalineup_engine/utils/iterators.py:161-162 | Credits are added and clipped at the priority. |
| `CreditScheduling.Credits.Schedule` | src/datalineup_engine/utils/iterators.py:164-168 | Full credits are spent, and only those. |
| `CreditScheduling.CreditsScheduler.constructor` | src/datalineup_engine/utils/iterators.py:173-181 | Every input starts with no credits. |
| `CreditScheduling.CreditsScheduler.GetLeastCost` | src/datalineup_engine/utils/iterators.py:186 | The loop computes the least cost of the ready inputs. |
| `CreditScheduling.CreditsScheduler.Schedule` | src/datalineup_engine/utils/iterators.py:183-193 | The loops leave the credits of the specified round, and pick its inputs in their order. |
| `CreditScheduling.OthersPay` | src/datalineup_engine/utils/iterators.py:183-193 | A round that does not pick a ready input leaves fewer other inputs full when nothing was distributed, and never all of them. |
| `CreditScheduling.PatienceShrinks` | src/datalineup_engine/utils/iterators.py:152-193 | The measure of an input that is ready and not picked decreases in every round. |
| `CreditScheduling.NoStarvation` | src/datalineup_engine/utils/iterators.py:152-193 | Of `n` inputs, one of priority `p` that stays ready is picked within `p * (n - 1) + 1` rounds, whatever the others do. |
| `CreditScheduling.BoundIsReached` | src/datalineup_engine/utils/iterators.py:152-193 | For every priority and every number of inputs the bound cannot be smaller: from no credits there is a run in which the input stays ready and is passed over in all rounds of the bound but the last. |
| `CreditScheduling.NoCreditIsLost` | src/datalineup_engine/utils/iterators.py:161-193 | While all inputs stay ready, times picked by priority plus credits equals what was distributed plus the starting credits. |
| `CreditScheduling.ExactShare` | src/datalineup_engine/utils/iterators.py:161-193 | From no credits, each input is then picked exactly the floor of total by priority. |
| `FanIn.Turns` | src/datalineup_engine/utils/iterators.py:112-139 | One round: the result of each picked input is taken, also after an error, with nothing yielded of any other input; and what the policy did not pick is kept. |
| `FanIn.Merge` | src/datalineup_engine/utils/iterators.py:99-143 | For every timing and policy: what is yielded of an input is a prefix of it in order; without an error, all of every input; an input that raised had yielded all; after an error no input has more than one entry, and the loop ends; and every item that a task had after a wait is yielded, at its place. |
| `FanIn.TurnKeeps` | src/datalineup_engine/utils/iterators.py:113-137 | A turn keeps the invariant, leaves less work, and touches no other finished task. |
| `FanIn.CreditsPick` | src/datalineup_engine/utils/iterators.py:183-193 | What the credits pick is a policy: at least one ready input, none twice. |
| `FairFanIn.PassedWaitsLess` | src/datalineup_engine/utils/iterators.py:99-193 | A round of the loop that passes over a finished input keeps its result, and leaves it less to wait. |
| `FairFanIn.TakenInTime` | src/datalineup_engine/utils/iterators.py:99-193 | In the loop under the credits policy: of `n` inputs, the result of one of priority `p` is taken within `p * (n - 1) + 1` rounds after its task finished. |
| `Buffering.Buffered` | src/datalineup_engine/utils/iterators.py:14-42 | For every timing of timeouts, and whether the iterator stops or raises: the batches are what each turn has appended, in order, and the loop ends exactly at a slice that is done with nothing. |
| `Buffering.BatchesAre` | src/datalineup_engine/utils/iterators.py:14-42 | The batches together are the items up to what was read, none is empty or larger than the buffer, the loop ends only after all that the iterator gave, and with more slices than items it has ended. |
| `Buffering.EndedHasAllIff` | src/datalineup_engine/utils/iterators.py:21-34 | A loop that has ended gave all items, if and only if the iterator did not raise before the last of them. |
| `Buffering.ErrorIsSilent` | src/datalineup_engine/utils/iterators.py:31-42 | An iterator that raises gives the same batches, and the same end, as one that ends there. |
| `Buffering.EndMayBeError` | src/datalineup_engine/utils/iterators.py:31-42 | And whatever comes out of an iterator that ends can come out of one that raises there, so that the consumer cannot tell. |
| `Buffering.ErrorLosesItems` | src/datalineup_engine/utils/iterators.py:31-42 | A run that shows it: of two items the second is lost, and the loop ends as after all. |
| `Lease.AssignedAre` | src/datalineup_engine/stores/queues_store.py:25-50 | The query returns exactly the enabled, selected queues that the worker has and whose lease runs, each once. |
| `Lease.UnassignedAre` | src/datalineup_engine/stores/queues_store.py:53-80 | The query returns exactly the enabled, selected queues that nobody has or whose lease is over, each once. |
| `Lease.CandidatesAre` | src/datalineup_engine/worker_manager/services/lock.py:29-62 | No queue is looked at twice, each is the own or free, and without an executor filter there are at most `max_assigned_items`. |
| `Lease.ExtraAre` | src/datalineup_engine/worker_manager/services/lock.py:42-46 | Only own queues beyond the maximum lose their assignment, and none of them is looked at further. |
| `Lease.GrantsAre` | src/datalineup_engine/worker_manager/services/lock.py:64-129 | The queues handed out are exactly the candidates with a definition, an allowed executor that is defined, and all resources; none twice. |
| `Lease.ResourcesAre` | src/datalineup_engine/worker_manager/services/lock.py:77-114 | The response has a resource of a name exactly when a candidate that has all its resources needs one, also one whose executor turns out to be missing. |
| `Lease.StrayResource` | src/datalineup_engine/worker_manager/services/lock.py:113-127 | A call that shows it: the response has the resource of a queue that is not handed out, as its executor is missing. |
| `Lease.ExecutorsAre` | src/datalineup_engine/worker_manager/services/lock.py:116-129 | The response has exactly the executors of the queues it hands out. |
| `Lease.RunningFirst` | src/datalineup_engine/worker_manager/services/lock.py:63-75 | Dropping unusable queues in a first loop loses nothing of what the second collects. |
| `Lease.JobsManager.Obtain` | src/datalineup_engine/worker_manager/services/lock.py:27-62 | The candidates are obtained, and the extra queues are unassigned. |
| `Lease.JobsManager.Join` | src/datalineup_engine/worker_manager/services/lock.py:63-75 | Queues without a definition are dropped, their jobs failed and their queues disabled; queues of other executors are dropped. |
| `Lease.JobsManager.GatherItem` | src/datalineup_engine/worker_manager/services/lock.py:83-107 | A missing or empty type stops the loop; otherwise the resources and providers of all types are gathered. |
| `Lease.JobsManager.Collect` | src/datalineup_engine/worker_manager/services/lock.py:77-129 | The second loop collects the response. |
| `Lease.JobsManager.LockJobs` | src/datalineup_engine/worker_manager/services/lock.py:17-147 | The call leaves the specified rows, failed jobs and response. |
| `Handouts.CandidateIff` | src/datalineup_engine/stores/queues_store.py:25-83 | A call looks at exactly these queues: the first of the own running leases by name, up to the maximum, and free ones, all with a filter and else as many as there is room for. |
| `Handouts.RowIs` | src/datalineup_engine/worker_manager/services/lock.py:17-147 | The rows of a call in terms of the rows before: a queue is in the response exactly where the call looks at it and it can be delivered, and is then the worker's from the refresh on; own ones beyond the maximum are nobody's; one whose job has no definition is disabled; all else is as it was. |
| `Handouts.FailedAre` | src/datalineup_engine/worker_manager/services/lock.py:43-62 | The failed jobs are exactly those of the queues that are looked at and have no definition. |
| `Handouts.HandsOut` | src/datalineup_engine/worker_manager/services/lock.py:17-147 | With no more own queues than the maximum, each that can be delivered is renewed; with room for them, every free queue that can be delivered is handed out, also one whose lease is over. |
| `Handouts.KeepsTheMaximum` | src/datalineup_engine/worker_manager/services/lock.py:29-41 | A worker that has more queues than the maximum keeps as many as the maximum. |
| `Handouts.NextWorkerGetsIt` | src/datalineup_engine/worker_manager/services/lock.py:17-147 | After any events: a queue whose lease is over goes to the next worker that asks, selects it and has room. |
| `Handouts.CreatedAndDisabled` | src/datalineup_engine/stores/queues_store.py:15-88 | A queue that is created is free, and one that is disabled is neither free nor own. |
| `Leases.OthersRows` | src/datalineup_engine/worker_manager/services/lock.py:27-62 | A call neither hands out nor changes a queue that another worker has on a running lease. |
| `Leases.GrantedRows` | src/datalineup_engine/worker_manager/services/lock.py:130-134 | A queue that is handed out is assigned to the worker from the refresh on. |
| `Leases.InvStep` | src/datalineup_engine/worker_manager/services/lock.py:17-147 | Every call of any worker, creation and disabling keeps: a queue of a last response is still assigned to its worker, or the lease is over. |
| `Leases.LeaseIsExclusive` | src/datalineup_engine/worker_manager/services/lock.py:27-62 | Over any run with a clock that does not go back: while the last response of a worker has a queue, no call of another is handed it unless it starts more than fifteen minutes later. |
| `Leases.OneLease` | src/datalineup_engine/worker_manager/services/lock.py:27-62 | No two workers have a running lease on a queue at a time. |
| `Leases.ResponseIsBounded` | src/datalineup_engine/worker_manager/services/lock.py:41-75 | A response has no queue twice, only enabled and selected ones for an allowed executor, and without a filter at most the maximum. |
| `Leases.ResponseIsComplete` | src/datalineup_engine/worker_manager/services/lock.py:77-147 | A response has the executor of each of its queues and no other, and every resource and provider of each type they need. |
| `WorkSync.Load` | src/datalineup_engine/worker/work_manager.py:97-113 | The names that are wanted and new are built, each as an object of its own, and the objects of names no longer wanted come out as dropped. |
| `WorkSync.ExchangeTracks` | src/datalineup_engine/worker/work_manager.py:141-192 | The table is its old values plus the added minus the dropped objects; what is dropped was there, what is added was not; the names are the wanted ones less the failed builds. |
| `WorkSync.WorkManager.GetSync` | src/datalineup_engine/worker/work_manager.py:83-95 | A sync loads the four tables; where building a provider raises, two are loaded and nothing comes out. |
| `WorkSync.SyncApplies` | src/datalineup_engine/worker/broker.py:88-104 | With closed responses no step of the broker raises: every queue that is added finds its executor, no executor is defined twice or missing, no resource is added twice. |
| `WorkSync.ServedIff` | src/datalineup_engine/worker/executors/manager.py:38-70 | After a sync every queue has its executor, if and only if the queues that stay keep theirs. |
| `WorkSync.MovedQueueIsLost` | src/datalineup_engine/worker/broker.py:88-104 | The run that shows it: the definition of a queue moves to another executor, and nothing serves the queue. |
| `WorkSync.RoundTracks` | src/datalineup_engine/worker/broker.py:88-104 | After a round, the worker runs exactly what the tables say, each queue at its executor. |
| `WorkSync.ExecutorsManager.AddQueue` | src/datalineup_engine/worker/executors/manager.py:38-42 | It raises just where the executor is missing. |
| `WorkSync.ExecutorsManager.RemoveQueue` | src/datalineup_engine/worker/executors/manager.py:44-48 | It does nothing where the executor is missing. |
| `WorkSync.ExecutorsManager.AddExecutor` | src/datalineup_engine/worker/executors/manager.py:50-62 | It raises just for a name that is defined. |
| `WorkSync.Broker.AddResources` | src/datalineup_engine/worker/broker.py:88-104 | It raises exactly where a resource of the type and name is there, or comes twice. |
| `WorkSync.Broker.RemoveResources` | src/datalineup_engine/worker/broker.py:88-104 | Resources are removed by type and name, whichever object it is, and no other. |
| `WorkSync.ExecutorsManager.RemoveExecutor` | src/datalineup_engine/worker/executors/manager.py:64-70 | It raises just where the executor is missing; otherwise its queues go with it. |
| `WorkSync.ExecutorsInOrder` | src/datalineup_engine/worker/broker.py:88-104 | The order of the broker works for the executors: what each loop needs holds when it comes. |
| `WorkSync.Broker.RunSync` | src/datalineup_engine/worker/broker.py:88-104 | The loops, in the order of the broker, raise nowhere exactly where the sync applies, and then reach the specified state. |
| `WorkSync.RunTracks` | src/datalineup_engine/worker/broker.py:73-104 | Over any run of closed responses in which no provider fails and queues keep their executors: the broker lives on and runs exactly what the last response names, less failed builds. |
| `WorkSync.LostSyncIff` | src/datalineup_engine/worker/work_manager.py:83-95 | A sync that raises is harmless, if and only if its response changes no resource, and no queue but for those that fail to build. |
| `WorkSync.NewQueueIsLost` | src/datalineup_engine/worker/work_manager.py:83-95 | The run that shows it: a new queue, and a provider that cannot be built. |
| `WorkSync.LostForGood` | src/datalineup_engine/worker/work_manager.py:97-113 | The queue that such a sync has built is served by no executor over any further rounds whose responses name it. |
| `WorkSync.LocksAreClosed` | src/datalineup_engine/worker_manager/services/lock.py:116-147 | The responses of `lock_jobs` are closed, as the worker needs them. |
| `Traceback.FormatStack` | src/datalineup_engine/utils/traceback_data.py:272-311 | Reading the entries gives back the exact sequence of frames; no more than three lines of a frame follow each other, a repetition stands after three and is of at least one, and another frame follows it. |
| `Traceback.OneMoreLine` | src/datalineup_engine/utils/traceback_data.py:300-302 | Up to the cutoff, one more frame of a run is a line. |
| `Traceback.OneMoreCopy` | src/datalineup_engine/utils/traceback_data.py:300-302 | From the cutoff on it is counted, and the entries stay. |
| `Traceback.NextRun` | src/datalineup_engine/utils/traceback_data.py:283-299 | The end of a run leaves entries that read as the whole stack so far. |
| `Usage.TimeIsCountedOrLost` | src/datalineup_engine/worker/services/usage_metrics.py:49-80 | Over any run, with messages that the weak set lets go at any time: what was collected, what is not collected yet and what was lost is the time that all messages together have spent in the stage. |
| `Usage.NoTimeIsLostIff` | src/datalineup_engine/worker/services/usage_metrics.py:49-80 | Nothing is lost, if and only if every message that is let go while it is there goes at the time of a flush. |
| `Usage.DroppedIsNotCounted` | src/datalineup_engine/worker/services/usage_metrics.py:49-80 | A run that shows it: a message is there for ten, is let go, and the collection counts nothing. |
| `Usage.TotalGrows` | src/datalineup_engine/worker/services/usage_metrics.py:60-64 | Between two events the total time grows by the elapsed time for each message that is there. |
| `Usage.PipelineState.Flush` | src/datalineup_engine/worker/services/usage_metrics.py:60-64 | The time since the last flush is counted once for each message. |
| `Usage.PipelineState.Add` | src/datalineup_engine/worker/services/usage_metrics.py:66-68 | The time until now is counted before the message is there. |
| `Usage.PipelineState.Pop` | src/datalineup_engine/worker/services/usage_metrics.py:70-73 | The time until now is counted before the message goes; an unknown message changes nothing. |
| `Usage.PipelineState.Drop` | src/datalineup_engine/worker/services/usage_metrics.py:49 | A message that nobody refers to leaves the weak set, and nothing is counted. |
| `Usage.PipelineState.Collect` | src/datalineup_engine/worker/services/usage_metrics.py:75-80 | What was counted comes out and is forgotten; where the division fails, nothing is lost. |

## Left out

- Resume, Join and Inventories.InventoryRun: a source is read in order; `Inventories.PagesAreInOrderIff` says for which batches `iterate` does so.
- Resume: a crash resumes from the cursor saved at that moment; for an older saved cursor, apply the results to the run up to then. The exit of the context of an item is one step.
- Cursors: reading and writing JSON is a datatype of cursors whose dump and load are inverse; text that happens to parse as a saved cursor is taken as one.
- Inventories: a source gives for a cursor the next stretch behind the item that has it, and for no cursor, an empty or an unknown one the first stretch; sources whose items change while they are read are not modelled.
- Inventories.StaticObeysSourceLaw: the cursor is one that the inventory made; `int` of any other text raises, and is not modelled.
- Join: the state machine starts from cursors of joins.
- Join: `join_inventories`, `run_subinv` and `process_item` interleave at every await, and are events of a state machine rather than methods. Runs of children do not raise. The scheduler logs an error and resolves the future, so that a parent whose children raised is settled as if all were done.
- Join: the items themselves (`MultiItems`) and the order in which the executor scheduler takes runs of children; any order is allowed.
- ChainedInventory and BatchingInventory: their cursors do not record all items under way, so that the resume property is not theirs.
- StateSync: flushes do not overlap, a batch refers to jobs that have a row, and the format of the keys in a flush is injective.
- JobsStore.Database.SyncJobsStates: the namespaces of the jobs are a parameter, and a queue has the row of its job.
- JobsStore: `start`, the creation of jobs, and reading states back; the at-most-one rule of `start` does not hold for a completed old name.
- Fetcher: the service also returns local states, over which a shared answer can write; the read of the service as a whole is not modelled.
- Throttle: runs without `cancel`, and futures that their callers do not cancel; an exception of the function settles the future like a result.
- Resources: rate limits, the state of a resource, and the names of limiters.
- Resources.ResourcesManager.AcquireMany: without waiting, and without delays; `Acquiring` has waiting tasks and delayed releases.
- Acquiring: a waiting task is not cancelled, and taking the lock of the condition is part of the step that needs it.
- SharedLock, Parkers, LRUDefaultDict, topics, logging and metrics labels: small, and would add only easy members.
- CreditScheduling: priorities are at least one.
- FanIn.Merge: an input is finite or ends with one exception; an exception that is not an `Exception`, which leaves the loop at once, and a consumer that stops are not modelled.
- Buffering: the iterator is an asynchronous generator, which gives nothing more after it raised.
- Lease: the calls are one after the other, as the lock of the endpoint makes them in one server (src/datalineup_engine/worker_manager/api/lock.py:20-35); the selector is the set of names that it matches, and the lists sorted by name are maps.
- Lease.JobsManager.LockJobs: the clock and the orders in which the database lists rows are parameters; the state of a job inside an item is not modelled.
- Leases.ResponseIsBounded: with an executor filter the query has no limit, and the cap does not hold.
- WorkSync: an exception outside the sync ends the broker, and what happens then is not modelled; neither are the scheduler of an executor and its slots.
- WorkSync: providers register resources of their own with the same manager; a name that one shares with a resource of a response is not modelled.
- WorkSync.RunTracks: building an executor or opening a provider does not raise.
- Usage: the fraction is given as its two parts. `flush` reads the clock itself and not its parameter (src/datalineup_engine/worker/services/usage_metrics.py:60-61), so that the events have both times.
- Traceback.FormatStack: the round trip is of file, line and name. Source lines are not printed, and the locals of folded frames are lost, as frames are compared without them (src/datalineup_engine/utils/traceback_data.py:283-302).
- Service dependency loading, the configuration, the executor scheduler, remote services and databases: plumbing, or not a fixpoint that could be stated.

# Creel: a model of its core, and what holds of it

Creel keeps documents, chunks, links, compaction records and jobs in Postgres tables and
chunk vectors in a separate vector backend, and changes them from many request handlers
and job workers, mostly without transactions. This project models those tables as maps,
each SQL statement as one function from tables to tables, and each handler as the
sequence of statements it issues. It proves what every interleaving of the statements
keeps, what whole serial histories keep, what one request undoes of another, and that
the job queue, the pipeline, search, authorization, paging, API keys, topic bindings and
the backend registry do what they are for.

Handlers and workers that update tables in place are classes whose methods are proved
equal to a function of the old tables; the properties are lemmas about those functions
and about the state machines built from them.

| file | about |
|---|---|
| `Ordering`, `Tables` | ordered results; the tables, and one function per statement |
| `Requests` | what each compaction, uncompaction, ingestion, deletion and embedding request does, told by its arguments |
| `Calls`, `Interleaving`, `Protocol` | compaction requests in flight, one statement at a time: the forest of parents, foreign keys |
| `Undoable` | every compaction can be undone, in the same runs |
| `Effects`, `Links`, `Serial`, `Sequences`, `RoundTrip` | undisturbed requests in closed form, conservation of links, index agreement, sequences and resumed chat sessions, what comes back |
| `Embeddings`, `Store`, `Handlers` | the embedding job, and the stores and handlers over tables updated in place |
| `Documented` | rules of the API documentation the code does not follow as written, and when it meets them |
| `Splitting`, `Pipeline`, `Workers`, `EndToEnd` | the chunker, the three pipeline jobs, the workers and one poller, an upload from start to end among other jobs |
| `Tasks`, `Meanwhile`, `Uploads` | the pipeline jobs one statement at a time, an upload while all jobs interleave by the statement, and what becomes of the uploaded bytes by media type |
| `Queue`, `Drain`, `Runs`, `Messages` | claims by any number of pollers, termination, whole jobs as runs of the queue, the memory fan-out |
| `Authorizer`, `Search`, `Paging` | access decisions, filtered search, job listing |
| `Keys`, `TopicBindings`, `TopicRaces`, `Registry` | API keys, topic configuration as whole requests and statement by statement, the backend cache |

Assumptions.

- Row ids are handed out in creation order, so a smaller id is an older row. Ids are never reused.
- The schema is that of `migrations/`: `compacted_by` references chunks without a delete
  action; links and compaction records go with the chunk they reference; deleting a
  language model sets the column of its topics to NULL.
- Vectors live in the backend, which is any that stores, finds and drops what it is told
  to. Only pgvector keeps them in the same database: its rows reference chunks and go with
  them (`migrations/000002_pgvector.up.sql`), so there a vector without a row cannot arise.
  No handler relies on it, but it matters where a late vector meets a deleted chunk
  (`LateEmbeddingKeepsAgreementIff`, `LateOnPgvectorIff`).
- A statement that fails for reasons outside the tables (a lost connection) ends its
  request. In `Interleaving` a request may stop after any statement; the serial and
  end-to-end results take the statements to succeed.
- The language model, the embedding provider, the HTML and PDF readers, the vector
  backend's ranking, the backend factories and, where a handler only asks it, the
  authorizer's verdict are parameters. Search asks of the backend only that it honours a
  filter that is not empty.
- API key hashes are never generated twice. Jobs of the pipeline and compaction kinds carry a document.
- Integers are unbounded except in the chat session, whose sequences are 32-bit and wrap.

Where the documentation and the code disagree, the code is modelled, and the exact condition
under which it does what is documented is a result. `Compact` does not refuse inactive
chunks or chunks of other documents (`docs/API_REFERENCE.md:421`): it skips the former and
takes the latter (`VerdictsCoincideIff`), and its count can then exceed what it compacted
(`ReportedCountIff`). Transferred outbound links keep their kind (`docs/API_REFERENCE.md:424`,
`TransferredKindsIff`), and inbound links are moved as well instead of being resolved on
traversal (`docs/API_REFERENCE.md:425`, `InboundStaysIff`). `Uncompact` does not hand links back (`docs/API_REFERENCE.md:443`):
they are deleted with the summary (`LinksSurviveIff`). `CreateLink` does not redirect to a
summary (`docs/API_REFERENCE.md:269`, `CreateLinkKeepsActiveIff`). Deleting an embedded
summary chunk that stands for others drops its vector and then fails
(`DeleteKeepsAgreementIff`).

## Model

| member | source | states |
|---|---|---|
| `Interleaving.AlwaysForest` | `internal/server/compaction.go:83-125` | Under any interleaving of the statements of any number of compactions and uncompactions, stopped anywhere, among ingestion, linking, embedding and deletion: `compacted_by` points at a live chunk created strictly later, and the status is `compacted` exactly when it is set |
| `Interleaving.StepKeepsForest` | `internal/store/chunk.go:232-268` | One statement, whoever issues it, keeps that; the guard on active rows and the source list fixed before the summary exists carry it |
| `Interleaving.AdvanceKeepsGrounded` | `internal/server/compaction.go:93-195` | The statement of a call keeps the parent relation pointing at live, later chunks |
| `Interleaving.AdvanceKeepsCallOk` | `internal/worker/compaction.go:71-91` | A call keeps its sources older than its summary from the first statement to the last |
| `Interleaving.Root` | `internal/store/chunk.go:232-243` | Following parents from any chunk ends, at an active chunk that is no older |
| `Interleaving.ChainsClimb` | `internal/store/chunk.go:232-243` | Along any chain of parents the creation order strictly grows: no chunk is its own ancestor |
| `Protocol.ForeignKeysNeverFire` | `internal/server/compaction.go:83-195` | In every run in which nobody deletes a summary still being written, no statement is ever refused for a foreign key: marking, recording, and deleting in this order is enough |
| `Protocol.StatementsFindTheirRows` | `internal/server/compaction.go:111-195` | A single statement finds the rows it refers to whenever its call is where it should be |
| `Protocol.RunKeepsOrdered` | `internal/server/compaction.go:123-125` | Creating the record last keeps a summary from being undone while it is written |
| `Protocol.ParentsChangeOnlyHands` | `internal/store/chunk.go:232-268` | A parent is never overwritten: it is set only on an active source by its own compaction, and cleared only by undoing that very summary |
| `Undoable.CompactionsStayTracked` | `internal/server/compaction.go:111-125` | In every run in which nobody deletes a summary still being written, the parent of a compacted chunk has a compaction record, or the call that is about to write it is in flight, unless a call was stopped between marking and recording |
| `Undoable.CompactionCanBeUndone` | `internal/server/compaction.go:141-215` | So once all calls have ended, undoing the parent of any compacted chunk brings the chunk back, but for compactions stopped at that very point |
| `Effects.TransferSubstitutes` | `internal/store/link.go:132-150` | The two UPDATEs of TransferLinks are one simultaneous renaming of both endpoints |
| `Effects.TransferLoop` | `internal/server/compaction.go:104-110` | The loop over any source list, in any order and with duplicates, is one simultaneous substitution of the summary for all sources |
| `Links.LinksAreConserved` | `internal/store/link.go:132-150` | Link ids, kinds, authors and metadata are untouched, exactly the endpoints among the sources are renamed, and no link touches a source afterwards |
| `Links.ReportedIsRenamed` | `internal/store/link.go:132-150` | The counts the calls return add up to the number of endpoints among the sources, each counted once |
| `Links.EachEndCounts` | `internal/store/link.go:132-150` | Every end among the ids counts for one |
| `Documented.CreateLinkKeepsActiveIff` | `internal/server/link.go:34-71` | A created link keeps every link on active chunks exactly when both its endpoints are active, which is exactly when it is the redirected link of the documentation |
| `Documented.LinksStayActive` | `internal/store/link.go:132-150` | As long as links are created between active chunks, no request of any serial history leaves a link on a compacted chunk |
| `Documented.CompactKeepsLinks` | `internal/server/compaction.go:104-120` | A compaction moves every link off the chunks it compacts |
| `Documented.VerdictsCoincideIff` | `docs/API_REFERENCE.md:421` | The documented verdict on a list of ids and the code’s coincide exactly when all are active and of the document, or none is active |
| `Documented.CodeAcceptsIff` | `internal/store/chunk.go:232-243` | The code accepts a list exactly when some listed chunk is active |
| `Documented.TransferredKindsIff` | `docs/API_REFERENCE.md:424` | Transferred outbound links are of the documented kind exactly when they were before |
| `Documented.InboundStaysIff` | `docs/API_REFERENCE.md:425` | Inbound links stay where they are, as documented, exactly when none leads to a listed chunk: the code renames them too |
| `Documented.LinkServer.Create` | `internal/server/link.go:34-71` | The link between two existing chunks, or the error that tells which check failed |
| `Documented.CreateLinkIff` | `internal/server/link.go:34-71` | A link is created exactly between two existing chunks by somebody allowed, as the one new row; denied exactly on an existing source |
| `Effects.FinishCompaction` | `internal/server/compaction.go:83-125` | A compaction that nobody disturbs, in closed form: it succeeds exactly when a listed id is an active chunk; refused, it leaves an unrecorded summary with the links already moved |
| `Effects.FinishUncompaction` | `internal/server/compaction.go:166-214` | An undisturbed uncompaction in closed form: children active again and unembedded, the summary, its records and every link on it gone |
| `Effects.DeletingChildless` | `internal/store/chunk.go:80-89` | Restoring first is what lets the summary row be deleted |
| `Requests.CompactDoesAsAsked` | `internal/server/compaction.go:52-125` | Told by its arguments: an accepted Compact puts exactly the active chunks among all the listed ids under the summary, moves every link end among the ids, drops their vectors, records the list, the document and the author, and the summary holds the content, with the given vector or, without one and with a queue, an embedding job |
| `Requests.CompactRefusesIff` | `internal/server/compaction.go:52-120` | Each refusal exactly in its own case; those before the first write leave the tables alone, the one without an active chunk leaves the summary row and the moved links |
| `Requests.SelectionIsTheRequest` | `internal/worker/compaction.go:57-85` | With a request, the requested ids that are active, at increasing positions of the request and none left out; without one, the active chunks of the document, each once |
| `Requests.WorkerCompacts` | `internal/worker/compaction.go:87-189` | The worker does the same to what it selected, with the model’s summary, the provider’s first vector, and no job |
| `Requests.WorkerStopsShort` | `internal/worker/compaction.go:87-141` | Fewer than two chunks are no work; a model that fails or says nothing leaves the tables alone; a provider that fails leaves the summary row, unembedded |
| `Requests.CompactionJobCompacts` | `internal/worker/pool.go:138-177` | A compaction job of the pool does that and ends completed, or failed when refused |
| `Requests.MessagesJobFansOut` | `internal/worker/pool.go:138-177` | A messages job of the pool inserts one maintenance job per fact that is not empty and ends completed |
| `Requests.UncompactDoesAsAsked` | `internal/server/compaction.go:141-215` | Refused without a record, then to whom may not; otherwise exactly the chunks of the summary are active again and returned, nothing of the summary is left, everything else is, and an embedding job is queued for its document |
| `Requests.IngestStoresInput` | `internal/server/chunk.go:58-80` | Input i becomes the i-th new row with its own content, sequence, metadata and vector |
| `Requests.IngestOnlyAdds` | `internal/server/chunk.go:58-80` | And no other row or vector changes |
| `Requests.DeletionIff` | `internal/server/chunk.go:146-153` | Refused exactly for a missing chunk and for one others are compacted into; otherwise the row, its vector, links and records go and nothing else |
| `Requests.EntryTellsTheModel` | `internal/worker/embedding.go:145-172` | With a vector go the chunk’s own metadata and the name of the model |
| `Requests.EmbeddingFailsIff` | `internal/worker/embedding.go:100-198` | The job succeeds exactly when the document is there and the provider answers one vector per chunk; otherwise no row and no vector changes |
| `Serial.IndexAlwaysAgrees` | `internal/server/chunk.go:58-80` | Over every serial run of ingestion, deletion, compaction with any id list, uncompaction and embedding: a chunk has its embedding id exactly when the backend holds its vector, compacted chunks have neither, and no vector is without a row |
| `Serial.ServeKeepsSound` | `internal/server/chunk.go:58-153` | Each request keeps the index, the parent relation and the records in order |
| `Serial.DeleteKeepsAgreementIff` | `internal/server/chunk.go:146-153` | DeleteChunk keeps index and table in agreement exactly when the chunk has no vector or stands for no other: of an embedded summary it drops the vector and is then refused the row |
| `Serial.LateEmbeddingKeepsAgreementIff` | `internal/store/chunk.go:92-96` | The unguarded statements of an embedding job, issued late, keep the agreement exactly when the chunk is still active, on a backend that stores whatever id it is given |
| `Serial.LateOnPgvectorIff` | `migrations/000002_pgvector.up.sql:3-7` | On pgvector, whose vectors reference chunks, exactly when it is active or gone |
| `Serial.CompactKeepsAgreement` | `internal/server/compaction.go:91-120` | Compaction keeps index and table in agreement, also for inactive, unknown and foreign ids |
| `Serial.NoActiveNoChange` | `internal/server/compaction.go:111-120` | On the failing path without an active chunk no row changes, and the vectors dropped were none |
| `Serial.UncompactedAgrees` | `internal/server/compaction.go:173-195` | Uncompaction keeps index and table in agreement |
| `Serial.EmbedAnswerKeepsSound` | `internal/worker/embedding.go:129-198` | Whatever the provider answers, the embedding job keeps index and table in agreement |
| `RoundTrip.CompactionRoundTrip` | `internal/server/compaction.go:52-215` | Compact, Uncompact and the embedding job with a deterministic provider return the chunk table and the vectors to the starting state |
| `RoundTrip.RoundTripEffect` | `internal/server/compaction.go:141-215` | Compact then Uncompact, for any id list with an active chunk: rows and records as before, embeddings of the active sources gone, links on listed ids gone |
| `RoundTrip.LinksSurviveIff` | `docs/API_REFERENCE.md:442-446` | The documentation hands links back; the code does not: they survive exactly when none touched a listed id |
| `RoundTrip.EmbeddingFillsIn` | `internal/worker/embedding.go:100-198` | With a deterministic provider the embedding job gives every active chunk without an embedding the vector of its own content, and touches nothing else |
| `RoundTrip.ReportedCountIff` | `internal/server/compaction.go:133-137` | The reported compacted count is the number of chunks compacted exactly when the listed ids are distinct and all active |
| `Embeddings.BatchAt` | `internal/worker/embedding.go:145-172` | The vector at each position goes to the chunk at that position |
| `Embeddings.ListByDocument` | `internal/store/chunk.go:186-229` | The active chunks of the document, each once, in sequence order |
| `Embeddings.Unembedded` | `internal/worker/embedding.go:112-118` | Exactly the listed chunks without an embedding id, each once |
| `Tables.NextSequence` | `internal/store/chunk.go:271-280` | Above every sequence of the document, compacted chunks included, and next to the highest |
| `Tables.RecordFor` | `internal/store/compaction.go:47-60` | A record of the summary if there is one |
| `Sequences.ParentsAlwaysClimb` | `internal/store/chunk.go:271-280` | Over every serial run with same-document sources a parent is in the document of its child and has a strictly larger sequence |
| `Sequences.RootIsHigher` | `internal/store/chunk.go:186-229` | Above every chunk stands an active one of its document with at least its sequence |
| `Sequences.VisibleBoundsHidden` | `cmd/creel-chat/repl.go:66-82` | What a resumed session is shown bounds every sequence of the document, those of hidden compacted chunks included |
| `Sequences.ResumedSessionClimbs` | `cmd/creel-chat/repl.go:325-340` | After any such history a resumed session writes strictly increasing sequences above every sequence present at resume time, while int32 lasts |
| `Sequences.TurnAboveIff` | `cmd/creel-chat/repl.go:325-340` | A turn writes above the resumed top exactly while the 32-bit arithmetic does not wrap around |
| `Sequences.WrittenIff` | `cmd/creel-chat/repl.go:325-340` | A number is written by a session exactly when it belongs to one of its turns and that turn ingests |
| `Sequences.SummaryCollidesIff` | `internal/store/chunk.go:271-280` | A compaction during a session, resumed or new, gives its summary a number the session writes exactly when the document holds a chunk above the top the session started from and the turn the number belongs to ingests |
| `Sequences.SummaryTakesTheNextNumber` | `internal/store/chunk.go:271-280` | The witness: right after a turn the summary takes the very number the next turn writes |
| `Sequences.ResumeSession` | `cmd/creel-chat/repl.go:66-82` | The offset is one past the highest visible sequence, in int32 |
| `Sequences.MaxSeqBounds` | `cmd/creel-chat/repl.go:66-82` | The highest visible sequence, 0 when there is none above |
| `Sequences.RunLoop` | `cmd/creel-chat/repl.go:207-345` | The loop writes the pair of numbers of each turn that ingests; a failed turn uses its numbers up |
| `Store.Database.Compact` | `internal/server/compaction.go:52-138` | The handler, statement by statement on tables updated in place, is the undisturbed run of its call, every error path included |
| `Store.Database.Uncompact` | `internal/server/compaction.go:141-215` | Likewise |
| `Store.Database.RunCompaction` | `internal/worker/compaction.go:123-188` | The part both compactions share, likewise |
| `Store.Database.MoveLinks` | `internal/server/compaction.go:104-110` | The TransferLinks loop, likewise |
| `Store.Database.TransferLinks` | `internal/store/link.go:132-150` | Renames both endpoints and returns the number of endpoints renamed; onto a missing chunk it fails unless there is nothing to rename |
| `Store.Database.MarkCompactedRows` | `internal/store/chunk.go:232-243` | Marks the active rows among the ids, clears their embedding ids, and fails when there are none |
| `Store.Database.RestoreCompactedRows` | `internal/store/chunk.go:247-268` | Reactivates the children of the summary and returns their ids |
| `Store.Database.DeleteRow` | `internal/store/chunk.go:80-89` | Deletes a chunk with its links and records unless another chunk points at it |
| `Store.Database.CreateRecord` | `internal/store/compaction.go:32-44` | Inserts the record of a live summary |
| `Store.Database.DeleteRecordRow` | `internal/store/compaction.go:86-95` | Deletes a record, or reports that it is gone |
| `Store.Database.UpdateDocStatus` | `internal/store/document.go:201-210` | Sets the status of an existing document |
| `Handlers.CompactionWorker.Select` | `internal/worker/compaction.go:57-85` | The listed chunks that are active, in the order listed, or all active chunks of the document |
| `Handlers.CompactionWorker.Process` | `internal/worker/compaction.go:55-189` | The worker is its selection, the model, the provider, and then the shared compaction |
| `Handlers.SelectedAreBelow` | `internal/worker/compaction.go:71-91` | What the worker selects is active and older than the summary it will create |
| `Handlers.ChunkServer.IngestChunks` | `internal/server/chunk.go:58-84` | A row per input, its vector and embedding id when one is given, one embedding job when one is missing and there is a job store |
| `Handlers.ChunkServer.DeleteChunk` | `internal/server/chunk.go:146-153` | The vector first, then the row |
| `Handlers.EmbeddingWorker.Process` | `internal/worker/embedding.go:100-198` | The worker with its filter, batch and tagging loops is the embedding job as a function |
| `Queue.QueueIsSafe` | `internal/store/job.go:235-301` | For any number of pollers and any interleaving: a job is held by at most one poller, handed out at most once in the whole run, and its status only moves on |
| `Queue.OneHolderIff` | `internal/worker/pool.go:138-177` | A running job has exactly one poller, exactly when its final update was not lost |
| `Queue.StepMovesOn` | `internal/store/job.go:235-262` | UpdateStatus has no guard; that its caller holds the job is what keeps a status from moving back |
| `Queue.StepKeepsRunningHeld` | `internal/worker/pool.go:138-177` | Every running job is worked on, unless its final update was lost |
| `Queue.StepKeepsExclusive` | `internal/store/job.go:267-301` | SKIP LOCKED keeps two claims from taking the same row |
| `Drain.EveryRunEnds` | `internal/worker/pool.go:138-177` | Without submissions or rollbacks no sequence of pool steps is infinite, workers that fail part-way or lose their update included |
| `Drain.StepGoesDown` | `internal/worker/pool.go:138-177` | Every step of the pool goes down lexicographically: per level of job types the queued jobs and then the work still owed, and idle pollers last |
| `Drain.StuckMeansDrained` | `internal/worker/pool.go:120-135` | With a poller, a pool is stuck exactly when all jobs are completed or failed (or their update was lost) and everyone is idle |
| `Workers.JobStore.ClaimNext` | `internal/store/job.go:267-301` | The oldest queued job of the kind becomes running; without one nothing changes |
| `Workers.JobStore.UpdateStatus` | `internal/store/job.go:235-262` | Sets the status of an existing job, whatever it was |
| `Workers.ExtractionWorker.Process` | `internal/worker/extraction.go:34-72` | The worker is the extraction job as a function |
| `Workers.ChunkingWorker.Process` | `internal/worker/chunking.go:48-142` | The worker, with both kinds of splitting and every error path, is the chunking job as a function |
| `Workers.ChunkingWorker.SplitBySense` | `internal/worker/chunking.go:191-230` | The non-empty chunks of the model’s answer, in order; none is an error |
| `Workers.ChunkingWorker.SplitFixed` | `internal/worker/chunking.go:105-119` | Only positive settings of the topic replace the default sizes |
| `Workers.WorkerPool.TryProcess` | `internal/worker/pool.go:138-177` | Claims the oldest job of the kind, of any kind the pool runs, runs its worker, and completes or fails it |
| `Workers.WorkInserts` | `internal/worker/extraction.go:62-71` | Every worker keeps to the budget the termination argument needs: at most one next job after extraction and chunking, any number after messages, none after the others |
| `Workers.JobIsAQueueRun` | `internal/worker/pool.go:138-177` | Whatever the other pollers are doing, a poller that may claim a job and runs it with its actual worker makes a legal run of the queue machine with the same job table |
| `Workers.CompactionKeepsJobs` | `internal/worker/compaction.go:55-189` | The compaction worker inserts no job |
| `Runs.WholeJobRuns` | `internal/worker/pool.go:138-177` | Claim, any number of insertions within budget, and final status are a legal run from any pool in which the poller may claim the job |
| `Runs.OldestCanBeClaimed` | `internal/store/job.go:273-284` | The oldest job of its kind may be claimed unless another poller is inside a claim of that very job |
| `Messages.MemoryMessagesWorker.Process` | `internal/worker/memory_messages.go:34-108` | One maintenance job per non-empty fact the model finds; the error paths insert none |
| `Messages.FanOutInserts` | `internal/worker/memory_messages.go:92-107` | Exactly as many jobs as non-empty facts |
| `Messages.MessagesOutcome` | `internal/worker/memory_messages.go:34-108` | What the job does in each case, and that the model is asked about the transcript |
| `Messages.TranscriptIsLines` | `internal/worker/memory_messages.go:55-75` | The transcript is one line of role and content per message, in order |
| `Pipeline.PiecesAreNumbered` | `internal/worker/chunking.go:122-130` | Row i of the pieces holds piece i under sequence i + 1 |
| `Pipeline.ListedInOrder` | `internal/worker/embedding.go:100-110` | The embedding job sees the pieces of a fresh document in order |
| `Pipeline.EmbeddingOutcome` | `internal/worker/embedding.go:129-198` | On a freshly chunked document the job succeeds exactly when the provider answers with one vector per piece |
| `Pipeline.ChunkingOutcome` | `internal/worker/chunking.go:48-142` | Fails exactly when the text could not be split; otherwise the rows hold the pieces and one embedding job follows |
| `Pipeline.ExtractionOutcome` | `internal/worker/extraction.go:34-72` | Fails exactly when the content cannot be extracted; otherwise the text is saved and one chunking job follows |
| `Pipeline.ExtractionByType` | `internal/worker/extraction.go:74-104` | Plain text is saved byte for byte, HTML and PDF as their reader makes of them; any other type fails, and so does a reader’s error |
| `Pipeline.SensibleSplits` | `internal/worker/chunking.go:191-230` | Splitting by sense keeps the model’s chunks that are not empty, in their order, and fails without a model, an answer or such a chunk |
| `Pipeline.SettingsAreUsed` | `internal/worker/chunking.go:105-119` | Positive settings of the topic are the size and the overlap the text is split with; without them it is 2048 and 200 |
| `Pipeline.PiecesAreTheWindows` | `internal/worker/chunking.go:105-119` | So piece i is the window of the configured size at i times size minus overlap |
| `Uploads.PlainTextComesBack` | `internal/worker/extraction.go:74-104` | However all statements interleave: the contents of the rows of a ready plain-text document of a topic that is not semantic, put together without their overlaps, are the uploaded bytes, and anything not empty is ready exactly when the provider answers one vector per piece |
| `Uploads.PlainUploads` | `internal/worker/extraction.go:74-104` | Plain text ends, in rows, vectors, status and jobs, as the bytes that were uploaded, also when split by sense |
| `Uploads.ReadUploads` | `internal/worker/extraction.go:74-104` | HTML and PDF end as what their reader makes of the bytes; when it fails, with the first job failed, no later one and no rows |
| `Uploads.OtherUploads` | `internal/worker/extraction.go:74-104` | Any other media type ends so |
| `EndToEnd.ReadyIffAllComplete` | `internal/worker/extraction.go:34-72` | Whatever whole jobs of whatever documents the pool runs in between, in any order, and whatever else is uploaded: once nothing of an uploaded document is queued, it is ready exactly when its three jobs completed, and then its chunks are numbered 1..n, hold the pieces of the text and carry the provider’s vectors, and fixed-size pieces reconstruct the text; otherwise it is failed, its last job failed, and no later job exists |
| `Tasks.UndisturbedIsWork` | `internal/worker/embedding.go:100-198` | The statements of a pipeline job, run with nobody in between, are the job |
| `Meanwhile.ReadyIffAllComplete` | `internal/worker/extraction.go:34-72` | The same result when the statements of its jobs, of the jobs of other documents and of everybody else interleave freely: once none of its jobs is queued or in flight, the document is ready with the pieces of its text in order and their vectors, exactly when all three jobs completed, and failed otherwise |
| `Meanwhile.AlwaysOngoing` | `internal/worker/pool.go:138-177` | At every moment of such a run the document, its rows, vectors and status, is exactly where the next statement of its one live job expects it, and all earlier jobs have succeeded |
| `Meanwhile.StageMoves` | `internal/worker/chunking.go:48-142` | A statement of a stage that inserts no job moves the document to the next point of the same stage |
| `Meanwhile.StageHandsOver` | `internal/worker/chunking.go:132-142` | A stage inserts the next job as its last statement, with everything the next stage needs already there |
| `Meanwhile.ForeignIsAround` | `internal/worker/embedding.go:100-198` | A statement of a pipeline job of another document touches no row, vector, status or job of this one, and lists none of its rows |
| `Meanwhile.ForeignCallIsAround` | `internal/server/compaction.go:83-195` | Nor does a statement of a compaction or uncompaction of chunks of another document |
| `EndToEnd.StoryHolds` | `internal/worker/pool.go:138-177` | At every moment of such a run the document is at one of the stages of its story, with exactly the jobs, rows and status of that stage |
| `EndToEnd.OtherJob` | `internal/worker/pool.go:138-177` | A whole job of another document leaves the rows, vectors, status and jobs of this one alone |
| `EndToEnd.ChunkingFails` | `internal/worker/chunking.go:59-118` | A text that is empty or cannot be split fails the document, with no embedding job |
| `EndToEnd.ExtractionFails` | `internal/worker/extraction.go:48-54` | Content that cannot be extracted fails the document, with no chunking job |
| `Splitting.SplitText` | `internal/worker/chunking.go:147-179` | The loop computes the closed form: chunk i starts at i times the step |
| `Splitting.SplitLosesNothing` | `internal/worker/chunking.go:147-179` | For every text and any size and overlap, negative or oversized, the first chunk and each later one without its overlap are the text |
| `Splitting.NeighboursShare` | `internal/worker/chunking.go:147-179` | For any size and overlap adjacent chunks share exactly the overlap after clamping |
| `Splitting.ChunkSizes` | `internal/worker/chunking.go:147-179` | All chunks but the last have exactly the chunk size; the last is not empty, and longer than the overlap when there are several |
| `Splitting.CountReaches` | `internal/worker/chunking.go:164-177` | The number of chunks is the least that reaches the end of the text |
| `Splitting.StartsInside` | `internal/worker/chunking.go:164-177` | Every chunk but the last ends before the text does, and each starts inside it |
| `Splitting.OrdinaryWindows` | `internal/worker/chunking.go:147-179` | With an overlap below the size, chunk i starts at i times their difference and is a full chunk unless it is the last, which is the first to reach the end |
| `Splitting.OrdinaryNeighbours` | `internal/worker/chunking.go:147-179` | Then adjacent chunks share exactly the overlap asked for |
| `Splitting.OddArguments` | `internal/worker/chunking.go:148-156` | No size is 2048, a negative overlap is none, one that is not below the size is a quarter of it |
| `Authorizer.DecisionsAgree` | `internal/auth/grant_authorizer.go:38-94` | For every principal, action and existing topic the check passes exactly when the topic is listed; no topic is listed twice |
| `Authorizer.ActionsAskFor` | `internal/auth/authorizer.go:14-27` | On a topic of somebody else: admin needs a grant of admin, write one of write or admin, read one of read, write or admin, any other action any grant, to the principal or one of its groups; for the check and the list alike |
| `Authorizer.OwnersMay` | `internal/auth/grant_authorizer.go:38-62` | The owner may do anything, and nobody anything on a topic that does not exist |
| `Authorizer.RaisingTheLevelShrinks` | `internal/auth/authorizer.go:16-27` | Asking for an action whose permission suffices for another lists no more than asking for the other |
| `Authorizer.ListsNest` | `internal/auth/grant_authorizer.go:66-94` | The topics listed for admin are among those for write, and those among those for read |
| `Authorizer.ListedIff` | `internal/auth/grant_authorizer.go:66-94` | A topic is listed exactly when it is owned or granted, to the principal or one of its groups, with a permission that suffices by its name |
| `Authorizer.GrantAuthorizer.Check` | `internal/auth/grant_authorizer.go:38-62` | Passes exactly when the topic exists and is owned or granted; tells a missing topic from a denied one |
| `Authorizer.GrantAuthorizer.AccessibleTopics` | `internal/auth/grant_authorizer.go:66-94` | The two loops compute the list |
| `Authorizer.GrantStore.GrantsForPrincipal` | `internal/store/grant.go:21-42` | The grants to any of the identities |
| `Search.SearchIsExact` | `internal/retrieval/search.go:41-123` | The results are the backend’s ranking of exactly the permitted chunks, nothing dropped or moved, each under its document’s topic; with none permitted the backend is not asked |
| `Search.FilterIsThePermitted` | `internal/store/chunk.go:99-130` | The filter sent is exactly the active chunks in readable, requested topics and not excluded documents |
| `Search.NothingIsDropped` | `internal/retrieval/search.go:101-120` | Assembling keeps every hit, in order |
| `Search.Searcher.Search` | `internal/retrieval/search.go:41-123` | The handler with its loops and maps is the search as a function |
| `Search.Searcher.ResolveTopics` | `internal/retrieval/search.go:127-150` | All readable topics, or those of the requested ones that are readable |
| `Paging.WalksEnd` | `internal/server/job.go:83-139` | Following the tokens, with any page size at each step, ends, after at most one page per job and one, having brought every job present at the first request exactly once, newest first, whatever later-stamped jobs were inserted meanwhile |
| `Paging.PagesAddUp` | `internal/server/job.go:135-139` | After pages of any sizes the client has exactly as much of the listing as they have room for, and a token exactly when there is more |
| `Paging.NextListing` | `internal/store/job.go:169-187` | The rows behind a token are what comes after it in the first listing |
| `Paging.TokenIsExactIff` | `internal/store/job.go:169-178` | A token hands over to the rest of the listing exactly when no job listed before it has its timestamp |
| `Paging.AllIsNewestFirst` | `internal/store/job.go:180-193` | The listing holds exactly the jobs of the scope, newest first |
| `Paging.JobServer.ListJobs` | `internal/server/job.go:71-139` | All three branches: one row more than the page is fetched, per topic when there are several, the page is cut, the token set, and errors told apart |
| `Paging.EverywhereIsNewestFirstIff` | `internal/server/job.go:109-130` | The listing over all readable topics is newest first exactly when each topic’s jobs are newer than those of the topics after it |
| `Paging.EverywhereCutsWhole` | `internal/server/job.go:109-139` | A page over all topics is cut from the concatenation of their listings behind the token, although each is asked for one page and a row only |
| `Paging.WideWalksIff` | `internal/server/job.go:109-139` | With distinct topics and stamps, every walk over all topics, with any page sizes, later jobs being inserted meanwhile, has in the end brought exactly that concatenation of the first moment, if and only if it is newest first; otherwise some walk loses a job or serves it again |
| `Paging.OlderTopicFirst` | `internal/server/job.go:109-139` | The witness: two topics, the older job first and pages of one; the walk ends after it and the newer job is never served |
| `Paging.OneTopicIsItsListing` | `internal/server/job.go:109-139` | With one readable topic it is that topic’s listing |
| `Paging.ListsExactly` | `internal/store/job.go:154-229` | A listing holds exactly the jobs of the topic or document, of the status asked for, that are behind the token |
| `Paging.StatusFilters` | `internal/store/job.go:154-229` | Filtering by status takes exactly the others out of the listing and moves nothing |
| `Paging.PageIsCut` | `internal/server/job.go:83-139` | A page is the listing cut at the size asked for, 50 when none is; its token names its last job exactly when there is more |
| `Paging.JobServer.Query` | `internal/store/job.go:154-229` | At most one row more than the page holds |
| `Keys.KeysOnlyAge` | `internal/store/system_account.go:46-177` | Over every serial history: at most one key in use per account, and a key only moves from in use to grace to revoked to gone, its grace never extended |
| `Keys.KeyIsGoodIff` | `internal/store/system_account.go:119-209` | A key in use stays accepted until its account is rotated, and then exactly until rotation time plus grace, unless revoked or deleted sooner |
| `Keys.GraceIsExact` | `internal/store/system_account.go:180-209` | A key in its grace period is accepted exactly while the period lasts and nobody revokes |
| `Keys.RejectedForGood` | `internal/store/system_account.go:180-209` | A key once rejected is never accepted again |
| `Keys.OverlapsLeave` | `internal/store/system_account.go:119-177` | For any order of the statements of any rotations and revocations of one account: the keys in use at the end are exactly those inserted since keys were last taken out of use |
| `Keys.OneKeyIff` | `internal/store/system_account.go:119-177` | So one key is in use exactly when one insert follows the last update |
| `Keys.OverlappingRotations` | `internal/store/system_account.go:128-153` | The witness: two rotations, each with its own grace and clock, whose updates both precede the first insert leave two keys in use |
| `Keys.SystemAccountStore.RotateKey` | `internal/store/system_account.go:119-162` | The transaction: old keys into grace or revoked, the new key in use, or nothing at all when the account is missing |
| `Keys.SystemAccountStore.RevokeKey` | `internal/store/system_account.go:165-177` | Every key of the account is revoked |
| `Keys.SystemAccountStore.CreateAccount` | `internal/store/system_account.go:46-82` | The account and its first key, or nothing |
| `Keys.SystemAccountStore.DeleteAccount` | `internal/store/system_account.go:106-115` | The account and its keys go |
| `Keys.SystemAccountStore.LookupKeyHash` | `internal/store/system_account.go:180-209` | The principal of a key in use, or in grace up to and including its expiry |
| `Keys.RotationReplacesTheKey` | `internal/store/system_account.go:119-162` | Rotation fails exactly for a missing account or a taken key; otherwise the new key is the only one in use, accepted as the account’s principal, the old one for its grace, and nothing else changes |
| `Keys.CreationIssuesAKey` | `internal/store/system_account.go:46-82` | Creation fails exactly for a taken name or key; otherwise the account and its key are new, the key is accepted as the account’s principal, and nothing else changes |
| `Keys.IssuedKeyIsGoodIff` | `internal/store/system_account.go:46-209` | A key just issued, by creation or rotation, is accepted after any history exactly as long as that history leaves it, as that account’s principal |
| `Keys.RotationIsItsStatements` | `internal/store/system_account.go:119-162` | A rotation is its update and then its insert |
| `Keys.DeletionTakesTheKeys` | `internal/store/system_account.go:106-115` | An account is deleted with exactly its keys |
| `TopicRaces.PromptSurvivesInterleaving` | `internal/server/topic.go:140-196` | However the statements of any number of updates interleave with each other and with other requests, a set extraction prompt comes with a set language model |
| `TopicRaces.KindIsSettledIff` | `internal/server/topic.go:140-196` | The provider and model of a bound topic can no longer change, whatever happens, exactly when no update in flight read the topic before it had them and can still write others |
| `TopicRaces.WriteKeepsKindIff` | `internal/server/topic.go:179-196` | A write whose request read an earlier state keeps the kind exactly when the topic was bound at the read, or the request leaves the embedding alone, or its configuration is of the bound kind |
| `TopicRaces.FirstBindingsRace` | `internal/server/topic.go:140-196` | The witness: two updates that both read an unbound topic both write, and the kind goes from one to the other |
| `TopicRaces.UndisturbedIsUpdate` | `internal/server/topic.go:126-201` | Undisturbed, the statements are the update as one step |
| `TopicBindings.PromptAlwaysHasModel` | `internal/server/topic.go:164-177` | Over every run of topic and configuration requests served one at a time a set extraction prompt comes with a set language model |
| `TopicBindings.KindIsSettled` | `internal/server/topic.go:179-194` | Over every run of requests served one at a time: once a topic has an embedding configuration its provider and model never change |
| `TopicBindings.UpdateAcceptedIff` | `internal/server/topic.go:164-194` | An update with valid references is accepted exactly when both rules hold of what it writes, the settings it leaves out being kept |
| `TopicBindings.UpdateWrites` | `internal/server/topic.go:126-201` | An accepted update sets the name and the configurations given and keeps owner and the others; nothing else changes |
| `TopicBindings.CreateWritesIff` | `internal/server/topic.go:34-77` | A topic is created exactly with a name, a model for its prompt and existing configurations, as the one new row |
| `TopicBindings.ReferencesAlwaysExist` | `migrations/000004_admin_configs.up.sql:56-59` | Over every run every configuration a topic names exists |
| `TopicBindings.DeletingModelKeepsReferences` | `migrations/000004_admin_configs.up.sql:56-59` | Also when a language model is deleted |
| `TopicBindings.EmbeddingUpdateWrites` | `internal/store/embedding_config.go:103-122` | Updating an embedding configuration sets the name and key that are given, and nothing else |
| `TopicBindings.UncheckedKeepsKindIff` | `internal/server/topic.go:181-193` | A server without the embedding store keeps the kind exactly when the new configuration is of the same kind |
| `TopicBindings.DeletingModelKeepsRuleIff` | `migrations/000004_admin_configs.up.sql:56-59` | Deleting a language model keeps the prompt rule exactly when no topic with a prompt uses it |
| `TopicBindings.StepKeepsKind` | `internal/store/embedding_config.go:103-122` | No request served on its own changes the kind of a topic: updating a configuration changes only name and key |
| `TopicBindings.TopicServer.Create` | `internal/server/topic.go:34-77` | Accepts exactly a named topic whose prompt comes with a model and whose references exist |
| `TopicBindings.TopicServer.Update` | `internal/server/topic.go:126-201` | The handler is the update as a function; refused, it changes nothing |
| `Registry.RegistryIsSafe` | `internal/vector/registry.go:52-98` | Under any interleaving successful factory calls for an id number at most one more than its Removes, and callers between two Puts or Removes of it get the same backend |
| `Registry.StepKeepsCreated` | `internal/vector/registry.go:71-92` | The second look under the lock keeps an id from being created twice |
| `Registry.StepKeepsHandouts` | `internal/vector/registry.go:65-92` | What was handed out since the last Put or Remove is what the cache holds |
| `Registry.StepKeepsLock` | `internal/vector/registry.go:71-75` | One caller at a time is past the lock, and past the second look its id is absent |
| `Registry.MissGoesToTheFactory` | `internal/vector/registry.go:65-80` | An undisturbed caller that misses gets past both looks to the factory |
| `Registry.UndisturbedIsGetOrCreate` | `internal/vector/registry.go:82-91` | From there the interleaved form does what GetOrCreate does alone; a failed factory leaves no entry |
| `Registry.HitIsGetOrCreate` | `internal/vector/registry.go:61-75` | An undisturbed caller that hits gets the cached backend and changes nothing else; no id is the fallback |
| `Registry.MissIsBuilt` | `internal/vector/registry.go:76-92` | On a miss an unknown kind and a failing factory are errors without an entry; what the factory makes is kept and returned |
| `Registry.PutAndRemoveAreSeen` | `internal/vector/registry.go:52-100` | The next undisturbed caller gets what was put, and after a Remove goes to the factory |
| `Registry.Registry.GetOrCreate` | `internal/vector/registry.go:61-92` | Fallback, cached, created, or an error that leaves the cache alone |

## Left out

- Requests that read only (GetChunk, ListLinks, GetContext, history, search by link traversal) and all conversions to and from wire messages: easy members.
- `lastN` and `since` of `ListByDocument`: only the full listing is used by the modelled writers.
- Memory storage: what a maintenance job does to the memories is decided by the language model; the job itself, and that it inserts none, is modelled.
- Index agreement while an embedding job runs beside a compaction: it does not hold, `SetEmbeddingID` has no guard on the status (`LateEmbeddingKeepsAgreementIff`), so the claim over runs is about serial ones.
- Uniqueness of sequences when a compaction runs during a chat session: a summary and a chunk of the session get the same number exactly when `SummaryCollidesIff` says; the claim over histories is about the moment a session resumes.
- Deletion of documents and topics and what cascades from it.
- Cancelling the pool and recovering from a crash: a job can stay running; the queue results say which ones.
- EndToEnd.ReadyIffAllComplete: jobs interleave whole, `Meanwhile.ReadyIffAllComplete` takes them statement by statement; a compaction job in between names chunks of its own document only, which the code does not check.
- Meanwhile.ReadyIffAllComplete: nobody else ingests, compacts or deletes chunks of the same document while its pipeline runs, and no final status update is lost.
- Progress entries of jobs: what a compaction or a messages job carries is a parameter, per job.
- Paging.JobServer.ListJobs: the query text the source builds is a set of rows and an order here, equal timestamps coming in some fixed order.
- Paging.WalksEnd: no status filter, since statuses change between pages.
- Default flags of configurations, deletion of embedding, prompt and backend configurations, unique slugs.
- Keys.KeysOnlyAge: histories of whole requests; rotations of one account whose statements overlap are `OverlapsLeave` and `OneKeyIff`.
- TopicBindings.KindIsSettled: requests served one at a time; updates whose statements interleave are `TopicRaces`.
- TopicBindings.PromptAlwaysHasModel: likewise.
- Registry.RegistryIsSafe: a read lock is the moment of the read, which excludes a writer and nobody else.

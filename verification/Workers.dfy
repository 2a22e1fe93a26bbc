/** The job table and the pipeline workers over tables updated in place, and one poller's
    claim, work and status update as a legal run of the queue machine. */
module Workers {
  import opened Tables
  import opened Splitting
  import opened Embeddings
  import opened Pipeline
  import opened Store
  import Calls
  import opened Runs
  import Handlers
  import Messages
  import Queue

  class JobStore {
    const db: Database

    constructor (db: Database)
      ensures this.db == db
    {
      this.db := db;
    }

    /** ClaimNext: the oldest queued job of the kind becomes running. */
    method ClaimNext(kind: JobKind) returns (job: Option<nat>)
      modifies db
      ensures job.Some? ==> Queue.IsOldest(old(db.jobs), kind, job.value)
      ensures job.Some? ==> forall j | 0 <= j < |old(db.jobs)| && old(db.jobs[j]).status.Queued? && old(db.jobs[j]).kind == kind ::
                old(db.jobs)[job.value].created <= old(db.jobs[j]).created
      ensures job.Some? ==> db.State() == old(db.State()).(jobs := Queue.SetStatus(old(db.jobs), job.value, Running))
      ensures job.None? ==> db.State() == old(db.State())
      ensures job.None? ==> forall j: nat | j < |db.jobs| :: !Queue.Waiting(db.jobs, kind, j)
    {
      job := None;
      for i := 0 to |db.jobs|
        invariant db.State() == old(db.State())
        invariant job.Some? ==> job.value < i && Queue.Waiting(db.jobs, kind, job.value)
        invariant forall j: nat | j < i && Queue.Waiting(db.jobs, kind, j) ::
                    job.Some? && db.jobs[job.value].created <= db.jobs[j].created
      {
        if Queue.Waiting(db.jobs, kind, i) && (job.None? || db.jobs[i].created < db.jobs[job.value].created) {
          job := Some(i);
        }
      }
      if job.Some? {
        db.jobs := db.jobs[job.value := db.jobs[job.value].(status := Running)];
      }
    }

    /** UpdateStatus: no guard on the status the job has. */
    method UpdateStatus(job: nat, status: JobStatus) returns (r: Result<()>)
      modifies db
      ensures r.Ok? <==> job < |old(db.jobs)|
      ensures db.State() == if r.Ok? then old(db.State()).(jobs := Queue.SetStatus(old(db.jobs), job, status)) else old(db.State())
    {
      if job >= |db.jobs| {
        return Err(NotFound);
      }
      db.jobs := db.jobs[job := db.jobs[job].(status := status)];
      r := Ok(());
    }
  }

  class ExtractionWorker {
    const db: Database

    constructor (db: Database)
      ensures this.db == db
    {
      this.db := db;
    }

    method SaveExtractedText(doc: Id, text: Text) returns (r: Result<()>)
      modifies db
      ensures match SaveExtracted(old(db.State()), doc, text)
              case Ok(after) => r == Ok(()) && db.State() == after
              case Err(e) => r == Err(e) && db.State() == old(db.State())
    {
      if doc !in db.docs || db.docs[doc].content.None? {
        return Err(NotFound);
      }
      var row := db.docs[doc];
      db.docs := db.docs[doc := row.(content := Some(row.content.value.(extracted := text)))];
      r := Ok(());
    }

    method Process(doc: Id, ex: Extractors) returns (outcome: JobOutcome)
      modifies db
      ensures (db.State(), outcome) == ExtractionJob(old(db.State()), doc, ex)
    {
      var started := db.UpdateDocStatus(doc, Processing);
      if started.Err? {
        return FailedWith(started.error);
      }
      if db.docs[doc].content.None? {
        outcome := db.Conclude(doc, FailedDoc, FailedWith(NotFound));
        return;
      }
      var content := db.docs[doc].content.value;
      var text := ExtractText(content.raw, content.contentType, ex);
      if text.Err? {
        outcome := db.Conclude(doc, FailedDoc, FailedWith(text.error));
        return;
      }
      var saved := SaveExtractedText(doc, text.value);
      assert saved.Ok?;
      db.CreateJob(Some(doc), Chunking);
      outcome := Succeeded;
    }
  }

  class ChunkingWorker {
    const db: Database

    constructor (db: Database)
      ensures this.db == db
    {
      this.db := db;
    }

    method CreateChunks(doc: Id, pieces: seq<Text>)
      modifies db
      ensures db.State() == InsertPieces(old(db.State()), doc, pieces)
    {
      for i := 0 to |pieces|
        invariant db.State() == InsertPieces(old(db.State()), doc, pieces[..i])
      {
        assert pieces[..i + 1][..i] == pieces[..i];
        var _ := db.CreateChunk(doc, pieces[i], i + 1, map[]);
      }
      assert pieces[..|pieces|] == pieces;
    }

    method SplitBySense(text: Text, splitter: Splitter) returns (r: Result<seq<Text>>)
      ensures r == SplitSemantic(text, splitter)
    {
      var answer := splitter(text);
      if answer.Err? {
        return Err(answer.error);
      }
      var result := [];
      for i := 0 to |answer.value|
        invariant result == NonEmpty(answer.value[..i])
      {
        assert answer.value[..i + 1][..i] == answer.value[..i];
        if answer.value[i] != [] {
          result := result + [answer.value[i]];
        }
      }
      assert answer.value[..|answer.value|] == answer.value;
      if result == [] {
        return Err(ProviderFailed);
      }
      r := Ok(result);
    }

    method SplitFixed(text: Text, strategy: Option<Strategy>) returns (pieces: seq<Text>)
      ensures pieces == Split(text, ChunkSizeOf(strategy), ChunkOverlapOf(strategy))
    {
      var chunkSize, chunkOverlap := DEFAULT_CHUNK_SIZE, DEFAULT_CHUNK_OVERLAP;
      if strategy.Some? {
        if strategy.value.chunkSize > 0 {
          chunkSize := strategy.value.chunkSize;
        }
        if strategy.value.chunkOverlap > 0 {
          chunkOverlap := strategy.value.chunkOverlap;
        }
      }
      pieces := SplitText(text, chunkSize, chunkOverlap);
    }

    method Process(doc: Id, strategy: Option<Strategy>, splitter: Option<Splitter>) returns (outcome: JobOutcome)
      modifies db
      ensures (db.State(), outcome) == ChunkingJob(old(db.State()), doc, strategy, splitter)
    {
      if doc !in db.docs || db.docs[doc].content.None? {
        outcome := db.Conclude(doc, FailedDoc, FailedWith(NotFound));
        return;
      }
      var text := db.docs[doc].content.value.extracted;
      if text == [] {
        outcome := db.Conclude(doc, FailedDoc, FailedWith(Invalid));
        return;
      }
      if strategy.Some? && strategy.value.semantic {
        if splitter.None? {
          outcome := db.Conclude(doc, FailedDoc, FailedWith(ProviderFailed));
          return;
        }
        var answer := SplitBySense(text, splitter.value);
        if answer.Err? {
          outcome := db.Conclude(doc, FailedDoc, FailedWith(answer.error));
          return;
        }
        CreateChunks(doc, answer.value);
      } else {
        var pieces := SplitFixed(text, strategy);
        CreateChunks(doc, pieces);
      }
      db.CreateJob(Some(doc), Embedding);
      outcome := Succeeded;
    }
  }

  // ----- one poller ------------------------------------------------------------------------

  /** What a job carries in its progress entry: the chunks a compaction was asked for and who
      asked, or the messages; and how a memory maintenance job ends, whose own table is not
      modelled. */
  datatype Payload = Payload(requested: seq<Id>, who: string, progress: Messages.Progress, maintained: JobOutcome)

  /** What the workers are configured with, and what the jobs carry. */
  datatype Services = Services(ex: Extractors, strategies: Id -> Option<Strategy>, splitter: Option<Splitter>,
                               provider: Provider, model: string, llm: Handlers.Summariser, finder: Messages.FactFinder,
                               payload: nat -> Payload)

  predicate NeedsDoc(kind: JobKind) {
    kind != MemoryMessages && kind != MemoryMaintenance
  }

  predicate HasWork(db: Db, j: nat) {
    j < |db.jobs| && (NeedsDoc(db.jobs[j].kind) ==> db.jobs[j].doc.Some?)
  }

  function StrategyFor(db: Db, doc: Id, s: Services): Option<Strategy> {
    if doc in db.docs then s.strategies(db.docs[doc].topic) else None
  }

  function AsJob(run: (Db, Calls.Outcome)): (Db, JobOutcome) {
    (run.0, if run.1.Refused? then FailedWith(run.1.error) else Succeeded)
  }

  /** The Process method of the worker of a document job. */
  function DocWork(db: Db, kind: JobKind, doc: Id, carried: Payload, s: Services): (Db, JobOutcome)
    requires NeedsDoc(kind)
  {
    if kind == Extraction then ExtractionJob(db, doc, s.ex)
    else if kind == Chunking then ChunkingJob(db, doc, StrategyFor(db, doc, s), s.splitter)
    else if kind == Embedding then EmbedDocument(db, doc, s.provider, s.model)
    else AsJob(Handlers.CompactionJob(db, doc, carried.requested, s.llm, s.provider, s.model, carried.who))
  }

  function MemoryWork(db: Db, kind: JobKind, carried: Payload, s: Services): (Db, JobOutcome) {
    if kind == MemoryMessages then Messages.MessagesJob(db, carried.progress, s.finder) else (db, carried.maintained)
  }

  function Claimed(db: Db, j: nat): Db
    requires j < |db.jobs|
  {
    db.(jobs := Queue.SetStatus(db.jobs, j, Running))
  }

  function Worked(db: Db, j: nat, s: Services): (Db, JobOutcome)
    requires HasWork(db, j)
  {
    var job := db.jobs[j];
    if NeedsDoc(job.kind) then DocWork(Claimed(db, j), job.kind, job.doc.value, s.payload(j), s)
    else MemoryWork(Claimed(db, j), job.kind, s.payload(j), s)
  }

  // ----- the jobs a worker inserts -------------------------------------------------------------

  /** A compaction inserts no job when it is not asked to. */
  lemma {:induction false} CompactionKeepsJobs(db: Db, call: Calls.Call)
    requires call.Done? || (!call.Looking? && !call.Restoring? && !call.Unstoring? && !call.Unrecording? && !call.Deleting? &&
                            !call.Enqueuing? && !call.plan.enqueue)
    ensures Calls.Finish(db, call).0.jobs == db.jobs
    decreases Calls.Rank(call)
  {
    if !call.Done? {
      var (db', call') := Calls.Advance(db, call);
      CompactionKeepsJobs(db', call');
    }
  }

  lemma {:induction false} PiecesKeepJobs(db: Db, doc: Id, pieces: seq<Text>)
    ensures InsertPieces(db, doc, pieces).jobs == db.jobs && InsertPieces(db, doc, pieces).now == db.now
  {
    if pieces != [] {
      PiecesKeepJobs(db, doc, pieces[..|pieces| - 1]);
    }
  }

  lemma CompactionInsertsNothing(db: Db, doc: Id, carried: Payload, s: Services)
    ensures Handlers.CompactionJob(db, doc, carried.requested, s.llm, s.provider, s.model, carried.who).0.jobs == db.jobs
  {
    var sources := Handlers.Selected(db, doc, carried.requested);
    Handlers.SelectedExist(db, doc, carried.requested);
    if |sources| >= 2 {
      var reply := s.llm(Texts(db, sources));
      if reply.Ok? && reply.value != [] {
        var answer := s.provider([reply.value]);
        if answer.Ok? {
          CompactionKeepsJobs(db, Calls.WorkerCall(doc, sources, reply.value, answer.value, s.model, carried.who));
        }
      }
    }
  }

  /** The job a worker of this kind inserts. */
  function NextJob(kind: JobKind, doc: Option<Id>, now: int): Job
    requires Queue.Next(kind).Some?
  {
    Job(if NeedsDoc(kind) then doc else None, Queue.Next(kind).value, Queued, now)
  }

  /** `jobs` and then `n` jobs of the next kind. */
  function WithNext(jobs: seq<Job>, kind: JobKind, doc: Option<Id>, now: int, n: nat): seq<Job>
    requires n > 0 ==> Queue.Next(kind).Some?
  {
    jobs + if n == 0 then [] else Copies(n, NextJob(kind, doc, now))
  }

  /** The jobs after the work are those before it and some number of next ones, within budget. */
  ghost predicate Inserts(db: Db, kind: JobKind, doc: Option<Id>, after: Db, n: nat) {
    Queue.WithinBudget(kind, n) && (n > 0 ==> Queue.Next(kind).Some? && after.jobs == WithNext(db.jobs, kind, doc, db.now, n)) &&
    (n == 0 ==> after.jobs == db.jobs)
  }

  lemma ChunkingInserts(db: Db, doc: Id, strategy: Option<Strategy>, splitter: Option<Splitter>) returns (n: nat)
    ensures Inserts(db, Chunking, Some(doc), ChunkingJob(db, doc, strategy, splitter).0, n)
  {
    n := 0;
    if doc in db.docs && db.docs[doc].content.Some? && db.docs[doc].content.value.extracted != [] {
      var pieces := PiecesOf(db.docs[doc].content.value.extracted, strategy, splitter);
      if pieces.Ok? {
        PiecesKeepJobs(db, doc, pieces.value);
        n := 1;
        assert Copies(1, NextJob(Chunking, Some(doc), db.now)) == [Job(Some(doc), Embedding, Queued, db.now)];
      }
    }
  }

  lemma ExtractionInserts(db: Db, doc: Id, ex: Extractors) returns (n: nat)
    ensures Inserts(db, Extraction, Some(doc), ExtractionJob(db, doc, ex).0, n)
  {
    n := if ExtractionJob(db, doc, ex).1 == Succeeded then 1 else 0;
    assert Copies(1, NextJob(Extraction, Some(doc), db.now)) == [Job(Some(doc), Chunking, Queued, db.now)];
  }

  lemma DocWorkInserts(db: Db, kind: JobKind, doc: Id, carried: Payload, s: Services) returns (n: nat)
    requires NeedsDoc(kind)
    ensures Inserts(db, kind, Some(doc), DocWork(db, kind, doc, carried, s).0, n)
  {
    n := 0;
    if kind == Extraction {
      n := ExtractionInserts(db, doc, s.ex);
    } else if kind == Chunking {
      n := ChunkingInserts(db, doc, StrategyFor(db, doc, s), s.splitter);
    } else if kind == Compaction {
      CompactionInsertsNothing(db, doc, carried, s);
    }
  }

  lemma MemoryWorkInserts(db: Db, kind: JobKind, doc: Option<Id>, carried: Payload, s: Services) returns (n: nat)
    requires !NeedsDoc(kind)
    ensures Inserts(db, kind, doc, MemoryWork(db, kind, carried, s).0, n)
  {
    n := 0;
    if kind == MemoryMessages && carried.progress.principal != "" && carried.progress.messages.Some? && carried.progress.messages.value != [] {
      var facts := s.finder(Messages.Transcript(carried.progress.messages.value));
      if facts.Ok? {
        n := Messages.Facts(facts.value);
        Messages.FanOutInserts(db, facts.value);
      }
    }
  }

  /** The budget the queue machine grants each worker: at most one next job after extraction
      and chunking, any number after messages, none after the others. */
  lemma WorkInserts(db: Db, j: nat, s: Services) returns (n: nat)
    requires HasWork(db, j)
    ensures Inserts(Claimed(db, j), db.jobs[j].kind, db.jobs[j].doc, Worked(db, j, s).0, n)
  {
    var job := db.jobs[j];
    if NeedsDoc(job.kind) {
      n := DocWorkInserts(Claimed(db, j), job.kind, job.doc.value, s.payload(j), s);
    } else {
      n := MemoryWorkInserts(Claimed(db, j), job.kind, job.doc, s.payload(j), s);
    }
  }

  // ----- a whole job -----------------------------------------------------------------------------

  function Ended(outcome: JobOutcome): JobStatus {
    if outcome == Succeeded then Completed else Failed
  }

  /** Pool.tryProcess on the job `j`: claim, work, final status. */
  function RunJob(db: Db, j: nat, s: Services): Db
    requires HasWork(db, j)
  {
    var (after, outcome) := Worked(db, j, s);
    JobIsStillThere(db, j, s);
    after.(jobs := Queue.SetStatus(after.jobs, j, Ended(outcome)))
  }

  lemma JobIsStillThere(db: Db, j: nat, s: Services)
    requires HasWork(db, j)
    ensures j < |Worked(db, j, s).0.jobs|
  {
    var n := WorkInserts(db, j, s);
  }

  lemma JobsAfterwards(jobs: seq<Job>, j: nat, n: nat, kind: JobKind, doc: Option<Id>, now: int, status: JobStatus)
    requires j < |jobs| && (n > 0 ==> Queue.Next(kind).Some?)
    ensures j < |WithNext(Queue.SetStatus(jobs, j, Running), kind, doc, now, n)|
    ensures Queue.SetStatus(WithNext(Queue.SetStatus(jobs, j, Running), kind, doc, now, n), j, status)
         == WithNext(Queue.SetStatus(jobs, j, status), kind, doc, now, n)
  {
  }

  lemma RunJobJobs(db: Db, j: nat, s: Services) returns (n: nat)
    requires HasWork(db, j)
    ensures Queue.WithinBudget(db.jobs[j].kind, n) && (n > 0 ==> Queue.Next(db.jobs[j].kind).Some?)
    ensures RunJob(db, j, s).jobs ==
            WithNext(Queue.SetStatus(db.jobs, j, Ended(Worked(db, j, s).1)), db.jobs[j].kind, db.jobs[j].doc, db.now, n)
  {
    n := WorkInserts(db, j, s);
    JobsAfterwards(db.jobs, j, n, db.jobs[j].kind, db.jobs[j].doc, db.now, Ended(Worked(db, j, s).1));
  }

  /** Whatever the other pollers are doing, a poller that may claim the job and runs it with
      its actual worker makes a legal run of the queue machine with the same job table. */
  lemma JobIsAQueueRun(db: Db, m: Queue.Pool, p: nat, j: nat, s: Services) returns (run: seq<Queue.Event>)
    requires HasWork(db, j) && m.jobs == db.jobs && Queue.Enabled(m, Queue.Lock(p, j))
    ensures Queue.Legal(m, run) && Queue.Exec(m, run) == m.(jobs := RunJob(db, j, s).jobs, handed := m.handed + [j])
  {
    var kind := db.jobs[j].kind;
    var doc := if NeedsDoc(kind) then db.jobs[j].doc else None;
    var ok := Worked(db, j, s).1 == Succeeded;
    var n := RunJobJobs(db, j, s);
    WholeJobRuns(m, p, j, n, doc, db.now, ok);
    run := WholeJob(p, j, n, doc, db.now, ok);
  }

  class WorkerPool {
    const db: Database
    const store: JobStore
    const extraction: ExtractionWorker
    const chunking: ChunkingWorker
    const embedding: Handlers.EmbeddingWorker
    const compaction: Handlers.CompactionWorker
    const messages: Messages.MemoryMessagesWorker
    const services: Services

    ghost predicate Valid() {
      && store.db == db && extraction.db == db && chunking.db == db && messages.db == db
      && embedding.db == db && embedding.model == services.model
      && compaction.db == db && compaction.model == services.model
    }

    constructor (db: Database, services: Services)
      ensures Valid() && this.db == db && this.services == services
    {
      this.db := db;
      this.services := services;
      store := new JobStore(db);
      extraction := new ExtractionWorker(db);
      chunking := new ChunkingWorker(db);
      embedding := new Handlers.EmbeddingWorker(db, services.model);
      compaction := new Handlers.CompactionWorker(db, services.model);
      messages := new Messages.MemoryMessagesWorker(db);
    }

    method ProcessDoc(kind: JobKind, doc: Id, carried: Payload) returns (outcome: JobOutcome)
      requires Valid() && NeedsDoc(kind)
      modifies db
      ensures (db.State(), outcome) == DocWork(old(db.State()), kind, doc, carried, services)
    {
      if kind == Extraction {
        outcome := extraction.Process(doc, services.ex);
      } else if kind == Chunking {
        var strategy := if doc in db.docs then services.strategies(db.docs[doc].topic) else None;
        outcome := chunking.Process(doc, strategy, services.splitter);
      } else if kind == Embedding {
        outcome := embedding.Process(doc, services.provider);
      } else {
        var result := compaction.Process(doc, carried.requested, services.llm, services.provider, carried.who);
        outcome := if result.Refused? then FailedWith(result.error) else Succeeded;
      }
    }

    method ProcessMemory(kind: JobKind, carried: Payload) returns (outcome: JobOutcome)
      requires Valid()
      modifies db
      ensures (db.State(), outcome) == MemoryWork(old(db.State()), kind, carried, services)
    {
      if kind == MemoryMessages {
        outcome := messages.Process(carried.progress, services.finder);
      } else {
        outcome := carried.maintained;
      }
    }

    /** tryProcess: the oldest queued job of the kind is run to its final status. */
    method TryProcess(kind: JobKind) returns (job: Option<nat>)
      requires Valid()
      requires forall j: nat | j < |db.jobs| && Queue.Waiting(db.jobs, kind, j) :: HasWork(db.State(), j)
      modifies db
      ensures job.Some? ==> Queue.IsOldest(old(db.jobs), kind, job.value)
      ensures job.Some? ==> db.State() == RunJob(old(db.State()), job.value, services)
      ensures job.None? ==> db.State() == old(db.State())
      ensures job.None? ==> forall j: nat | j < |db.jobs| :: !Queue.Waiting(db.jobs, kind, j)
    {
      job := store.ClaimNext(kind);
      if job.None? {
        return;
      }
      JobIsStillThere(old(db.State()), job.value, services);
      assert db.State() == Claimed(old(db.State()), job.value);
      var outcome;
      if NeedsDoc(kind) {
        outcome := ProcessDoc(kind, db.jobs[job.value].doc.value, services.payload(job.value));
      } else {
        outcome := ProcessMemory(kind, services.payload(job.value));
      }
      var _ := store.UpdateStatus(job.value, if outcome == Succeeded then Completed else Failed);
    }
  }
}

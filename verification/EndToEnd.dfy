/** An uploaded document, from the upload to the last of its jobs, while the pool runs the
    jobs of other documents in between, in any order, and other documents arrive. */
module EndToEnd {
  import opened Ordering
  import opened Tables
  import opened Splitting
  import opened Calls
  import opened Interleaving
  import opened Effects
  import opened Embeddings
  import opened Pipeline
  import opened Runs
  import opened Workers
  import Handlers
  import Messages
  import Queue

  // ----- the jobs of one document ----------------------------------------------------------

  function JobsOf(jobs: seq<Job>, doc: Id): seq<(JobKind, JobStatus)> {
    if jobs == [] then []
    else
      var last := jobs[|jobs| - 1];
      JobsOf(jobs[..|jobs| - 1], doc) + if last.doc == Some(doc) then [(last.kind, last.status)] else []
  }

  /** Where job `j` stands among the jobs of its document. */
  function Place(jobs: seq<Job>, doc: Id, j: nat): nat
    requires j < |jobs|
  {
    |JobsOf(jobs[..j], doc)|
  }

  lemma {:induction false} OwnJobSet(jobs: seq<Job>, doc: Id, j: nat, status: JobStatus)
    requires j < |jobs| && jobs[j].doc == Some(doc)
    ensures Place(jobs, doc, j) < |JobsOf(jobs, doc)| && JobsOf(jobs, doc)[Place(jobs, doc, j)] == (jobs[j].kind, jobs[j].status)
    ensures JobsOf(Queue.SetStatus(jobs, j, status), doc) == JobsOf(jobs, doc)[Place(jobs, doc, j) := (jobs[j].kind, status)]
  {
    var n := |jobs| - 1;
    if j == n {
      assert Queue.SetStatus(jobs, j, status)[..n] == jobs[..n];
    } else {
      OwnJobSet(jobs[..n], doc, j, status);
      assert Queue.SetStatus(jobs, j, status)[..n] == Queue.SetStatus(jobs[..n], j, status);
      assert jobs[..n][..j] == jobs[..j];
    }
  }

  lemma {:induction false} OtherJobSet(jobs: seq<Job>, doc: Id, j: nat, status: JobStatus)
    requires j < |jobs| && jobs[j].doc != Some(doc)
    ensures JobsOf(Queue.SetStatus(jobs, j, status), doc) == JobsOf(jobs, doc)
  {
    var n := |jobs| - 1;
    if j == n {
      assert Queue.SetStatus(jobs, j, status)[..n] == jobs[..n];
    } else {
      OtherJobSet(jobs[..n], doc, j, status);
      assert Queue.SetStatus(jobs, j, status)[..n] == Queue.SetStatus(jobs[..n], j, status);
    }
  }

  lemma JobAdded(jobs: seq<Job>, job: Job, doc: Id)
    ensures JobsOf(jobs + [job], doc) == JobsOf(jobs, doc) + if job.doc == Some(doc) then [(job.kind, job.status)] else []
  {
    assert (jobs + [job])[..|jobs|] == jobs;
  }

  lemma {:induction false} OtherJobsAdded(jobs: seq<Job>, n: nat, job: Job, doc: Id)
    requires job.doc != Some(doc)
    ensures JobsOf(jobs + Copies(n, job), doc) == JobsOf(jobs, doc)
  {
    if n == 0 {
      assert jobs + Copies(0, job) == jobs;
    } else {
      OtherJobsAdded(jobs, n - 1, job, doc);
      JobAdded(jobs + Copies(n - 1, job), job, doc);
      assert jobs + Copies(n, job) == jobs + Copies(n - 1, job) + [job];
    }
  }

  // ----- other documents leave this one alone ------------------------------------------------

  predicate IdsBelow(db: Db) {
    forall c | c in db.chunks :: c < db.next
  }

  /** The rows, the vectors and the status of the document are what they were. */
  predicate LeftAlone(db: Db, after: Db, doc: Id) {
    && (doc in db.docs ==> doc in after.docs && after.docs[doc] == db.docs[doc])
    && (forall c | c in db.chunks && db.chunks[c].doc == doc :: c in after.chunks && after.chunks[c] == db.chunks[c])
    && (forall c | c in after.chunks && after.chunks[c].doc == doc :: c in db.chunks && db.chunks[c] == after.chunks[c])
    && (forall c | c in db.chunks && db.chunks[c].doc == doc && c in db.vectors :: c in after.vectors && after.vectors[c] == db.vectors[c])
  }

  /** What a job of another document may do. */
  predicate Elsewhere(db: Db, after: Db, doc: Id) {
    LeftAlone(db, after, doc) && IdsBelow(after) && db.next <= after.next
  }

  lemma ConcludeIsElsewhere(db: Db, after: Db, other: Id, doc: Id, status: DocStatus, outcome: JobOutcome)
    requires other != doc && Elsewhere(db, after, doc)
    ensures Elsewhere(db, Embeddings.Conclude(after, other, status, outcome).0, doc)
  {
  }

  lemma ExtractionIsElsewhere(db: Db, other: Id, doc: Id, ex: Extractors)
    requires other != doc && IdsBelow(db)
    ensures Elsewhere(db, ExtractionJob(db, other, ex).0, doc)
  {
  }

  lemma PiecesAreElsewhere(db: Db, other: Id, doc: Id, pieces: seq<Text>)
    requires other != doc && IdsBelow(db)
    ensures Elsewhere(db, InsertPieces(db, other, pieces), doc)
  {
    PiecesAreNumbered(db, other, pieces);
    var after := InsertPieces(db, other, pieces);
    forall c | c in after.chunks && c !in db.chunks
      ensures after.chunks[c].doc == other && c < after.next
    {
      var i := c - db.next;
      assert 0 <= i < |pieces| && db.next + i == c;
      assert after.chunks[db.next + i] == Chunk(other, i + 1, pieces[i], None, Active, None, map[]);
    }
  }

  lemma ChunkingIsElsewhere(db: Db, other: Id, doc: Id, strategy: Option<Strategy>, splitter: Option<Splitter>)
    requires other != doc && IdsBelow(db)
    ensures Elsewhere(db, ChunkingJob(db, other, strategy, splitter).0, doc)
  {
    if other in db.docs && db.docs[other].content.Some? && db.docs[other].content.value.extracted != [] {
      var pieces := PiecesOf(db.docs[other].content.value.extracted, strategy, splitter);
      if pieces.Ok? {
        PiecesAreElsewhere(db, other, doc, pieces.value);
      }
    }
  }

  lemma EmbeddedIsElsewhere(db: Db, other: Id, doc: Id, todo: seq<Id>, vs: seq<Vector>, model: string)
    requires other != doc && IdsBelow(db) && |vs| == |todo| && forall c | c in todo :: c in db.chunks && db.chunks[c].doc == other
    ensures Elsewhere(db, Embedded(db, todo, vs, model), doc)
  {
    var batch := Batch(todo, Entries(db, todo, vs, model));
    assert forall c | c in db.chunks && db.chunks[c].doc == doc :: c !in todo && c !in batch;
  }

  lemma AnswerIsElsewhere(db: Db, other: Id, doc: Id, todo: seq<Id>, answer: Result<seq<Vector>>, model: string)
    requires other != doc && IdsBelow(db) && forall c | c in todo :: c in db.chunks && db.chunks[c].doc == other
    ensures Elsewhere(db, EmbedAnswer(db, other, todo, answer, model).0, doc)
  {
    if answer.Ok? && |answer.value| == |todo| {
      EmbeddedIsElsewhere(db, other, doc, todo, answer.value, model);
      ConcludeIsElsewhere(db, Embedded(db, todo, answer.value, model), other, doc, Ready, Succeeded);
    }
  }

  lemma EmbeddingIsElsewhere(db: Db, other: Id, doc: Id, provider: Provider, model: string)
    requires other != doc && IdsBelow(db)
    ensures Elsewhere(db, EmbedDocument(db, other, provider, model).0, doc)
  {
    var todo := Todo(db, other);
    if todo != [] {
      AnswerIsElsewhere(db, other, doc, todo, provider(Texts(db, todo)), model);
    }
  }

  lemma RowsCompactedElsewhere(db: Db, p: Plan, doc: Id, c: Id)
    requires p.doc != doc && IdsBelow(db) && forall c | c in p.sources && c in db.chunks :: db.chunks[c].doc == p.doc
    ensures var chunks := CompactedDb(db, p).0.chunks;
            && (c in db.chunks && db.chunks[c].doc == doc ==> c in chunks && chunks[c] == db.chunks[c])
            && (c in chunks && chunks[c].doc == doc ==> c in db.chunks && db.chunks[c] == chunks[c])
            && (c in chunks ==> c < CompactedDb(db, p).0.next)
  {
  }

  lemma VectorsCompactedElsewhere(db: Db, p: Plan, doc: Id, c: Id)
    requires p.doc != doc && IdsBelow(db) && forall c | c in p.sources && c in db.chunks :: db.chunks[c].doc == p.doc
    requires c in db.chunks && db.chunks[c].doc == doc && c in db.vectors
    ensures c in CompactedDb(db, p).0.vectors && CompactedDb(db, p).0.vectors[c] == db.vectors[c]
  {
  }

  lemma CompactedIsElsewhere(db: Db, p: Plan, doc: Id)
    requires p.doc != doc && IdsBelow(db) && forall c | c in p.sources && c in db.chunks :: db.chunks[c].doc == p.doc
    ensures Elsewhere(db, CompactedDb(db, p).0, doc)
  {
    forall c: Id
      ensures var chunks := CompactedDb(db, p).0.chunks;
              && (c in db.chunks && db.chunks[c].doc == doc ==> c in chunks && chunks[c] == db.chunks[c])
              && (c in chunks && chunks[c].doc == doc ==> c in db.chunks && db.chunks[c] == chunks[c])
              && (c in chunks ==> c < CompactedDb(db, p).0.next)
    {
      RowsCompactedElsewhere(db, p, doc, c);
    }
    forall c | c in db.chunks && db.chunks[c].doc == doc && c in db.vectors
      ensures c in CompactedDb(db, p).0.vectors && CompactedDb(db, p).0.vectors[c] == db.vectors[c]
    {
      VectorsCompactedElsewhere(db, p, doc, c);
    }
  }

  lemma CompactionIsElsewhere(db: Db, other: Id, doc: Id, carried: Payload, s: Services)
    requires other != doc && IdsBelow(db)
    requires forall c | c in carried.requested && c in db.chunks :: db.chunks[c].doc == other
    ensures Elsewhere(db, Handlers.CompactionJob(db, other, carried.requested, s.llm, s.provider, s.model, carried.who).0, doc)
  {
    var sources := Handlers.Selected(db, other, carried.requested);
    Handlers.SelectedExist(db, other, carried.requested);
    if |sources| >= 2 {
      var reply := s.llm(Texts(db, sources));
      if reply.Ok? && reply.value != [] {
        var answer := s.provider([reply.value]);
        if answer.Ok? {
          var call := WorkerCall(other, sources, reply.value, answer.value, s.model, carried.who);
          FinishCompaction(db, call.plan);
          CompactedIsElsewhere(db, call.plan, doc);
        }
      }
    }
  }

  /** A compaction only names chunks of the document it was requested for. */
  predicate NamesOwn(db: Db, j: nat, s: Services)
    requires HasWork(db, j)
  {
    db.jobs[j].kind == Compaction ==>
      forall c | c in s.payload(j).requested && c in db.chunks :: db.chunks[c].doc == db.jobs[j].doc.value
  }

  lemma DocWorkIsElsewhere(db: Db, kind: JobKind, other: Id, doc: Id, carried: Payload, s: Services)
    requires NeedsDoc(kind) && other != doc && IdsBelow(db)
    requires kind == Compaction ==> forall c | c in carried.requested && c in db.chunks :: db.chunks[c].doc == other
    ensures Elsewhere(db, DocWork(db, kind, other, carried, s).0, doc)
  {
    if kind == Extraction {
      ExtractionIsElsewhere(db, other, doc, s.ex);
    } else if kind == Chunking {
      ChunkingIsElsewhere(db, other, doc, StrategyFor(db, other, s), s.splitter);
    } else if kind == Embedding {
      EmbeddingIsElsewhere(db, other, doc, s.provider, s.model);
    } else {
      CompactionIsElsewhere(db, other, doc, carried, s);
    }
  }

  lemma MemoryWorkIsElsewhere(db: Db, kind: JobKind, doc: Id, carried: Payload, s: Services)
    requires IdsBelow(db)
    ensures Elsewhere(db, MemoryWork(db, kind, carried, s).0, doc)
  {
    if kind == MemoryMessages && carried.progress.messages.Some? {
      var facts := s.finder(Messages.Transcript(carried.progress.messages.value));
      if facts.Ok? {
        Messages.FanOutInserts(db, facts.value);
      }
    }
  }

  lemma JobsDoNotMatter(db: Db, after: Db, doc: Id, jobs: seq<Job>, jobs': seq<Job>)
    ensures Elsewhere(db.(jobs := jobs), after, doc) <==> Elsewhere(db, after.(jobs := jobs'), doc)
  {
  }

  /** A whole job of another document, or of none, leaves this one and its jobs alone. */
  lemma OtherJob(db: Db, j: nat, doc: Id, s: Services)
    requires HasWork(db, j) && db.jobs[j].doc != Some(doc) && NamesOwn(db, j, s) && IdsBelow(db)
    ensures Elsewhere(db, RunJob(db, j, s), doc)
    ensures JobsOf(RunJob(db, j, s).jobs, doc) == JobsOf(db.jobs, doc)
  {
    var job, claimed := db.jobs[j], Claimed(db, j);
    if NeedsDoc(job.kind) {
      DocWorkIsElsewhere(claimed, job.kind, job.doc.value, doc, s.payload(j), s);
    } else {
      MemoryWorkIsElsewhere(claimed, job.kind, doc, s.payload(j), s);
    }
    JobsDoNotMatter(db, Worked(db, j, s).0, doc, claimed.jobs, RunJob(db, j, s).jobs);
    OtherJobKeepsJobs(db, j, doc, s);
  }

  lemma OtherJobKeepsJobs(db: Db, j: nat, doc: Id, s: Services)
    requires HasWork(db, j) && db.jobs[j].doc != Some(doc)
    ensures JobsOf(RunJob(db, j, s).jobs, doc) == JobsOf(db.jobs, doc)
  {
    var job, status := db.jobs[j], Ended(Worked(db, j, s).1);
    var n := RunJobJobs(db, j, s);
    OtherJobSet(db.jobs, doc, j, status);
    var finished := Queue.SetStatus(db.jobs, j, status);
    if n > 0 {
      OtherJobsAdded(finished, n, NextJob(job.kind, job.doc, db.now), doc);
    } else {
      assert RunJob(db, j, s).jobs == finished + [] == finished;
    }
  }

  // ----- the stages of an upload ---------------------------------------------------------------

  datatype Story = Story(doc: Id, topic: Id, raw: Text, contentType: string)

  function TextOf(y: Story, s: Services): Result<Text> {
    ExtractText(y.raw, y.contentType, s.ex)
  }

  function PiecesFor(y: Story, s: Services): Result<seq<Text>> {
    var text := TextOf(y, s);
    if text.Err? then Err(text.error)
    else if text.value == [] then Err(Invalid)
    else PiecesOf(text.value, s.strategies(y.topic), s.splitter)
  }

  predicate Answered(y: Story, s: Services) {
    PiecesFor(y, s).Ok? && Fits(s.provider(PiecesFor(y, s).value), PiecesFor(y, s).value)
  }

  predicate NoRows(db: Db, doc: Id) {
    forall c | c in db.chunks :: db.chunks[c].doc != doc
  }

  predicate HasStatus(db: Db, y: Story, status: DocStatus, extracted: Text) {
    y.doc in db.docs && db.docs[y.doc] == Doc(y.topic, status, Some(Content(y.raw, y.contentType, extracted)))
  }

  predicate AwaitsExtraction(db: Db, y: Story) {
    JobsOf(db.jobs, y.doc) == [(Extraction, Queued)] && HasStatus(db, y, Pending, []) && NoRows(db, y.doc)
  }

  predicate AwaitsChunking(db: Db, y: Story, s: Services) {
    && JobsOf(db.jobs, y.doc) == [(Extraction, Completed), (Chunking, Queued)] && TextOf(y, s).Ok?
    && HasStatus(db, y, Processing, TextOf(y, s).value) && NoRows(db, y.doc)
  }

  ghost predicate AwaitsEmbedding(db: Db, y: Story, s: Services, first: Id) {
    && JobsOf(db.jobs, y.doc) == [(Extraction, Completed), (Chunking, Completed), (Embedding, Queued)]
    && PiecesFor(y, s).Ok? && HasStatus(db, y, Processing, TextOf(y, s).value)
    && HoldsPieces(db, y.doc, first, PiecesFor(y, s).value, false)
  }

  /** The rows from `first` on are the pieces, numbered 1, 2, ..., each with the provider's
      vector for its content; pieces of a fixed size, without their overlaps, are the text. */
  ghost predicate Published(db: Db, y: Story, s: Services, first: Id) {
    var strategy := s.strategies(y.topic);
    && Answered(y, s) && HoldsPieces(db, y.doc, first, PiecesFor(y, s).value, true)
    && HoldsVectors(db.vectors, first, s.provider(PiecesFor(y, s).value).value, s.model)
    && (!IsSemantic(strategy) ==>
        Reassemble(PiecesFor(y, s).value, EffectiveOverlap(ChunkSizeOf(strategy), ChunkOverlapOf(strategy))) == TextOf(y, s).value)
  }

  /** The jobs a document ends with: each stage completed before the next was inserted, and
      nothing after the first that failed. */
  function Stages(y: Story, s: Services): seq<(JobKind, JobStatus)> {
    if TextOf(y, s).Err? then [(Extraction, Failed)]
    else if PiecesFor(y, s).Err? then [(Extraction, Completed), (Chunking, Failed)]
    else [(Extraction, Completed), (Chunking, Completed), (Embedding, if Answered(y, s) then Completed else Failed)]
  }

  ghost predicate Settled(db: Db, y: Story, s: Services) {
    && JobsOf(db.jobs, y.doc) == Stages(y, s)
    && y.doc in db.docs && db.docs[y.doc].status == (if Answered(y, s) then Ready else FailedDoc)
    && (Answered(y, s) ==> exists first :: Published(db, y, s, first))
  }

  // ----- each stage survives the others --------------------------------------------------------

  lemma PiecesAreLeftAlone(db: Db, after: Db, doc: Id, first: Id, pieces: seq<Text>, embedded: bool)
    requires LeftAlone(db, after, doc) && HoldsPieces(db, doc, first, pieces, embedded)
    ensures HoldsPieces(after, doc, first, pieces, embedded)
  {
  }

  lemma VectorsAreLeftAlone(db: Db, after: Db, doc: Id, first: Id, pieces: seq<Text>, vs: seq<Vector>, model: string)
    requires LeftAlone(db, after, doc) && HoldsPieces(db, doc, first, pieces, true) && |vs| == |pieces|
    requires HoldsVectors(db.vectors, first, vs, model)
    ensures HoldsVectors(after.vectors, first, vs, model)
  {
    forall i | 0 <= i < |vs|
      ensures HasEntry(after.vectors, first + i, Entry(vs[i], WithModel(map[], model)))
    {
      var c: Id := first + i;
      assert c in db.chunks && db.chunks[c].doc == doc;
      assert HasEntry(db.vectors, first + i, Entry(vs[i], WithModel(map[], model)));
    }
  }

  lemma SettledIsLeftAlone(db: Db, after: Db, y: Story, s: Services)
    requires Settled(db, y, s) && LeftAlone(db, after, y.doc) && JobsOf(after.jobs, y.doc) == JobsOf(db.jobs, y.doc)
    ensures Settled(after, y, s)
  {
    if Answered(y, s) {
      var first :| Published(db, y, s, first);
      var pieces := PiecesFor(y, s).value;
      PiecesAreLeftAlone(db, after, y.doc, first, pieces, true);
      VectorsAreLeftAlone(db, after, y.doc, first, pieces, s.provider(pieces).value, s.model);
      assert Published(after, y, s, first);
    }
  }

  ghost predicate InStory(db: Db, y: Story, s: Services) {
    AwaitsExtraction(db, y) || AwaitsChunking(db, y, s) || (exists first :: AwaitsEmbedding(db, y, s, first)) || Settled(db, y, s)
  }

  lemma StoryIsLeftAlone(db: Db, after: Db, y: Story, s: Services)
    requires InStory(db, y, s) && LeftAlone(db, after, y.doc) && JobsOf(after.jobs, y.doc) == JobsOf(db.jobs, y.doc)
    ensures InStory(after, y, s)
  {
    if AwaitsExtraction(db, y) {
      assert AwaitsExtraction(after, y);
    } else if AwaitsChunking(db, y, s) {
      assert AwaitsChunking(after, y, s);
    } else if first :| AwaitsEmbedding(db, y, s, first) {
      PiecesAreLeftAlone(db, after, y.doc, first, PiecesFor(y, s).value, false);
      assert AwaitsEmbedding(after, y, s, first);
    } else {
      SettledIsLeftAlone(db, after, y, s);
    }
  }

  // ----- the document's own jobs -----------------------------------------------------------------

  /** The status and place of a queued job decide its kind. */
  lemma OwnQueued(db: Db, doc: Id, j: nat, stages: seq<(JobKind, JobStatus)>)
    requires j < |db.jobs| && db.jobs[j].doc == Some(doc) && db.jobs[j].status.Queued? && JobsOf(db.jobs, doc) == stages
    requires stages != [] && forall i | 0 <= i < |stages| - 1 :: !stages[i].1.Queued?
    ensures Place(db.jobs, doc, j) == |stages| - 1 && stages[|stages| - 1] == (db.jobs[j].kind, Queued)
  {
    OwnJobSet(db.jobs, doc, j, Queued);
  }

  /** The jobs of the document after its own job `j`, the last, has ended with `status` and
      inserted at most one. */
  lemma OwnJobEnds(jobs: seq<Job>, doc: Id, j: nat, status: JobStatus, next: seq<Job>)
    requires j < |jobs| && jobs[j].doc == Some(doc) && |next| <= 1 && forall n | n in next :: n.doc == Some(doc)
    ensures var stages := JobsOf(jobs, doc);
            Place(jobs, doc, j) < |stages| &&
            JobsOf(Queue.SetStatus(jobs, j, status) + next, doc) ==
            stages[Place(jobs, doc, j) := (jobs[j].kind, status)] + if next == [] then [] else [(next[0].kind, next[0].status)]
  {
    OwnJobSet(jobs, doc, j, status);
    var finished := Queue.SetStatus(jobs, j, status);
    if next == [] {
      assert finished + next == finished;
    } else {
      assert next == [next[0]];
      JobAdded(finished, next[0], doc);
    }
  }

  /** What a whole job leaves, from what its worker leaves. */
  lemma RunJobIs(db: Db, j: nat, s: Services, after: Db, outcome: JobOutcome, next: seq<Job>)
    requires HasWork(db, j) && Worked(db, j, s) == (after, outcome) && after.jobs == Claimed(db, j).jobs + next
    ensures RunJob(db, j, s) == after.(jobs := Queue.SetStatus(db.jobs, j, Ended(outcome)) + next)
  {
    assert Queue.SetStatus(after.jobs, j, Ended(outcome)) == Queue.SetStatus(db.jobs, j, Ended(outcome)) + next;
  }

  predicate OwnTurn(db: Db, y: Story, j: nat) {
    HasWork(db, j) && db.jobs[j].doc == Some(y.doc) && db.jobs[j].status.Queued?
  }

  lemma WorkIsExtraction(db: Db, doc: Id, j: nat, s: Services)
    requires HasWork(db, j) && db.jobs[j].kind == Extraction && db.jobs[j].doc == Some(doc)
    ensures Worked(db, j, s) == ExtractionJob(Claimed(db, j), doc, s.ex)
  {
  }

  lemma ExtractionSucceeds(db: Db, y: Story, j: nat, s: Services)
    requires AwaitsExtraction(db, y) && IdsBelow(db) && OwnTurn(db, y, j) && TextOf(y, s).Ok?
    ensures AwaitsChunking(RunJob(db, j, s), y, s) && IdsBelow(RunJob(db, j, s))
  {
    OwnQueued(db, y.doc, j, [(Extraction, Queued)]);
    WorkIsExtraction(db, y.doc, j, s);
    ExtractionOutcome(Claimed(db, j), y.doc, s.ex);
    var (after, outcome) := ExtractionJob(Claimed(db, j), y.doc, s.ex);
    var next := [Job(Some(y.doc), Chunking, Queued, db.now)];
    RunJobIs(db, j, s, after, outcome, next);
    OwnJobEnds(db.jobs, y.doc, j, Completed, next);
  }

  lemma ExtractionFails(db: Db, y: Story, j: nat, s: Services)
    requires AwaitsExtraction(db, y) && IdsBelow(db) && OwnTurn(db, y, j) && TextOf(y, s).Err?
    ensures Settled(RunJob(db, j, s), y, s) && IdsBelow(RunJob(db, j, s))
  {
    OwnQueued(db, y.doc, j, [(Extraction, Queued)]);
    WorkIsExtraction(db, y.doc, j, s);
    ExtractionOutcome(Claimed(db, j), y.doc, s.ex);
    var (after, outcome) := ExtractionJob(Claimed(db, j), y.doc, s.ex);
    assert after.jobs == Claimed(db, j).jobs + [];
    RunJobIs(db, j, s, after, outcome, []);
    OwnJobEnds(db.jobs, y.doc, j, Failed, []);
  }

  lemma WorkIsChunking(db: Db, doc: Id, j: nat, s: Services)
    requires HasWork(db, j) && db.jobs[j].kind == Chunking && db.jobs[j].doc == Some(doc)
    ensures Worked(db, j, s) == ChunkingJob(Claimed(db, j), doc, StrategyFor(db, doc, s), s.splitter)
  {
  }

  /** The chunking job of the story, whether there is a text or not. */
  lemma ChunkingIsStoring(db: Db, y: Story, j: nat, s: Services)
    requires AwaitsChunking(db, y, s) && OwnTurn(db, y, j)
    ensures PiecesFor(y, s).Ok? ==> Worked(db, j, s) == StorePieces(Claimed(db, j), y.doc, PiecesFor(y, s))
    ensures PiecesFor(y, s).Err? ==>
      exists e :: Worked(db, j, s) == Embeddings.Conclude(Claimed(db, j), y.doc, FailedDoc, FailedWith(e))
  {
    OwnQueued(db, y.doc, j, [(Extraction, Completed), (Chunking, Queued)]);
    WorkIsChunking(db, y.doc, j, s);
    if PiecesFor(y, s).Err? {
      assert Worked(db, j, s) == Embeddings.Conclude(Claimed(db, j), y.doc, FailedDoc, FailedWith(PiecesFor(y, s).error));
    }
  }

  /** What chunking leaves of the story, apart from the job table. */
  lemma ChunkingLeaves(db: Db, y: Story, s: Services)
    requires y.doc in db.docs && IdsBelow(db) && NoRows(db, y.doc) && PiecesFor(y, s).Ok?
    ensures var (after, outcome) := StorePieces(db, y.doc, PiecesFor(y, s));
            && outcome == Succeeded && after.jobs == db.jobs + [Job(Some(y.doc), Embedding, Queued, db.now)]
            && after.docs == db.docs && IdsBelow(after) && HoldsPieces(after, y.doc, db.next, PiecesFor(y, s).value, false)
  {
    ChunkingOutcome(db, y.doc, PiecesFor(y, s));
    PiecesStayBelow(db, y.doc, PiecesFor(y, s).value);
  }

  lemma ChunkedAwaits(db: Db, y: Story, j: nat, s: Services, end: Db)
    requires AwaitsChunking(db, y, s) && OwnTurn(db, y, j) && db.jobs[j].kind == Chunking && Place(db.jobs, y.doc, j) == 1
    requires end.jobs == Queue.SetStatus(db.jobs, j, Completed) + [Job(Some(y.doc), Embedding, Queued, db.now)]
    requires end.docs == db.docs && PiecesFor(y, s).Ok? && HoldsPieces(end, y.doc, db.next, PiecesFor(y, s).value, false)
    ensures AwaitsEmbedding(end, y, s, db.next)
  {
    OwnJobEnds(db.jobs, y.doc, j, Completed, [Job(Some(y.doc), Embedding, Queued, db.now)]);
  }

  lemma ChunkingSucceeds(db: Db, y: Story, j: nat, s: Services)
    requires AwaitsChunking(db, y, s) && IdsBelow(db) && OwnTurn(db, y, j) && PiecesFor(y, s).Ok?
    ensures AwaitsEmbedding(RunJob(db, j, s), y, s, db.next) && IdsBelow(RunJob(db, j, s))
  {
    ChunkingIsStoring(db, y, j, s);
    OwnQueued(db, y.doc, j, [(Extraction, Completed), (Chunking, Queued)]);
    ChunkingLeaves(Claimed(db, j), y, s);
    var (after, outcome) := StorePieces(Claimed(db, j), y.doc, PiecesFor(y, s));
    var next := [Job(Some(y.doc), Embedding, Queued, db.now)];
    RunJobIs(db, j, s, after, outcome, next);
    ChunkedAwaits(db, y, j, s, after.(jobs := Queue.SetStatus(db.jobs, j, Completed) + next));
  }

  lemma PiecesStayBelow(db: Db, doc: Id, pieces: seq<Text>)
    requires IdsBelow(db)
    ensures IdsBelow(InsertPieces(db, doc, pieces))
  {
    PiecesAreNumbered(db, doc, pieces);
  }

  lemma ChunkingFails(db: Db, y: Story, j: nat, s: Services)
    requires AwaitsChunking(db, y, s) && IdsBelow(db) && OwnTurn(db, y, j) && PiecesFor(y, s).Err?
    ensures Settled(RunJob(db, j, s), y, s) && IdsBelow(RunJob(db, j, s))
  {
    ChunkingIsStoring(db, y, j, s);
    OwnQueued(db, y.doc, j, [(Extraction, Completed), (Chunking, Queued)]);
    var e :| Worked(db, j, s) == Embeddings.Conclude(Claimed(db, j), y.doc, FailedDoc, FailedWith(e));
    var (after, outcome) := Worked(db, j, s);
    assert after.jobs == Claimed(db, j).jobs + [];
    RunJobIs(db, j, s, after, outcome, []);
    OwnJobEnds(db.jobs, y.doc, j, Failed, []);
  }

  lemma WorkIsEmbedding(db: Db, doc: Id, j: nat, s: Services)
    requires HasWork(db, j) && db.jobs[j].kind == Embedding && db.jobs[j].doc == Some(doc)
    ensures Worked(db, j, s) == EmbedDocument(Claimed(db, j), doc, s.provider, s.model)
  {
  }

  /** What the last job leaves of the story, apart from the job table. */
  lemma EmbeddingLeaves(db: Db, y: Story, s: Services, first: Id)
    requires y.doc in db.docs && PiecesFor(y, s).Ok? && HoldsPieces(db, y.doc, first, PiecesFor(y, s).value, false)
    ensures var (after, outcome) := EmbedDocument(db, y.doc, s.provider, s.model);
            && (outcome == Succeeded <==> Answered(y, s)) && after.jobs == db.jobs
            && y.doc in after.docs && after.docs[y.doc].status == (if Answered(y, s) then Ready else FailedDoc)
            && (Answered(y, s) ==> Published(after, y, s, first))
  {
    var strategy, text, pieces := s.strategies(y.topic), TextOf(y, s).value, PiecesFor(y, s).value;
    PiecesAreSome(text, strategy, s.splitter);
    EmbeddingOutcome(db, y.doc, first, pieces, s.provider, s.model);
    if !IsSemantic(strategy) {
      SplitLosesNothing(text, ChunkSizeOf(strategy), ChunkOverlapOf(strategy));
    }
  }

  lemma EmbeddingStaysBelow(db: Db, doc: Id, provider: Provider, model: string)
    requires IdsBelow(db)
    ensures IdsBelow(EmbedDocument(db, doc, provider, model).0)
  {
    var todo := Todo(db, doc);
    if todo != [] {
      AnswerStaysBelow(db, doc, todo, provider(Texts(db, todo)), model);
    }
  }

  lemma AnswerStaysBelow(db: Db, doc: Id, todo: seq<Id>, answer: Result<seq<Vector>>, model: string)
    requires IdsBelow(db) && forall c | c in todo :: c in db.chunks
    ensures IdsBelow(EmbedAnswer(db, doc, todo, answer, model).0)
  {
  }

  lemma EmbeddedSettles(db: Db, y: Story, j: nat, s: Services, first: Id, end: Db)
    requires AwaitsEmbedding(db, y, s, first) && OwnTurn(db, y, j) && db.jobs[j].kind == Embedding && Place(db.jobs, y.doc, j) == 2
    requires end.jobs == Queue.SetStatus(db.jobs, j, if Answered(y, s) then Completed else Failed) + []
    requires y.doc in end.docs && end.docs[y.doc].status == if Answered(y, s) then Ready else FailedDoc
    requires Answered(y, s) ==> Published(end, y, s, first)
    ensures Settled(end, y, s)
  {
    OwnJobEnds(db.jobs, y.doc, j, if Answered(y, s) then Completed else Failed, []);
  }

  lemma EmbeddingSettles(db: Db, y: Story, j: nat, s: Services, first: Id)
    requires AwaitsEmbedding(db, y, s, first) && IdsBelow(db) && OwnTurn(db, y, j)
    ensures Settled(RunJob(db, j, s), y, s) && IdsBelow(RunJob(db, j, s))
  {
    OwnQueued(db, y.doc, j, [(Extraction, Completed), (Chunking, Completed), (Embedding, Queued)]);
    WorkIsEmbedding(db, y.doc, j, s);
    EmbeddingLeaves(Claimed(db, j), y, s, first);
    EmbeddingStaysBelow(Claimed(db, j), y.doc, s.provider, s.model);
    var (after, outcome) := EmbedDocument(Claimed(db, j), y.doc, s.provider, s.model);
    assert after.jobs == Claimed(db, j).jobs + [];
    RunJobIs(db, j, s, after, outcome, []);
    EmbeddedSettles(db, y, j, s, first, after.(jobs := Queue.SetStatus(db.jobs, j, Ended(outcome)) + []));
  }

  lemma NoTurnOnceSettled(db: Db, y: Story, j: nat, s: Services)
    requires Settled(db, y, s)
    ensures !OwnTurn(db, y, j)
  {
    if OwnTurn(db, y, j) {
      OwnJobSet(db.jobs, y.doc, j, Queued);
    }
  }

  /** A job of the document's own moves the story on. */
  lemma OwnJobMovesOn(db: Db, y: Story, j: nat, s: Services)
    requires InStory(db, y, s) && IdsBelow(db) && OwnTurn(db, y, j)
    ensures InStory(RunJob(db, j, s), y, s) && IdsBelow(RunJob(db, j, s))
  {
    if AwaitsExtraction(db, y) {
      if TextOf(y, s).Ok? {
        ExtractionSucceeds(db, y, j, s);
      } else {
        ExtractionFails(db, y, j, s);
      }
    } else if AwaitsChunking(db, y, s) {
      if PiecesFor(y, s).Ok? {
        ChunkingSucceeds(db, y, j, s);
      } else {
        ChunkingFails(db, y, j, s);
      }
    } else if first :| AwaitsEmbedding(db, y, s, first) {
      EmbeddingSettles(db, y, j, s, first);
    } else {
      NoTurnOnceSettled(db, y, j, s);
    }
  }

  // ----- runs of whole jobs ----------------------------------------------------------------------

  /** Some queued job is run, of whatever document, or another document is uploaded. */
  datatype Happening = Ran(j: nat) | Arrived(y: Story)

  predicate Possible(db: Db, h: Happening, s: Services) {
    match h
    case Ran(j) => HasWork(db, j) && db.jobs[j].status.Queued? && NamesOwn(db, j, s)
    case Arrived(y) => y.doc !in db.docs
  }

  function After(db: Db, h: Happening, s: Services): Db
    requires Possible(db, h, s)
  {
    match h
    case Ran(j) => RunJob(db, j, s)
    case Arrived(y) => Upload(db, y.doc, y.topic, y.raw, y.contentType)
  }

  predicate Legal(db: Db, run: seq<Happening>, s: Services)
    decreases |run|
  {
    run == [] || (Possible(db, run[0], s) && Legal(After(db, run[0], s), run[1..], s))
  }

  function Exec(db: Db, run: seq<Happening>, s: Services): Db
    requires Legal(db, run, s)
    decreases |run|
  {
    if run == [] then db else Exec(After(db, run[0], s), run[1..], s)
  }

  lemma ArrivalIsElsewhere(db: Db, x: Story, y: Story)
    requires x.doc !in db.docs && y.doc in db.docs && IdsBelow(db)
    ensures var after := Upload(db, x.doc, x.topic, x.raw, x.contentType);
            LeftAlone(db, after, y.doc) && IdsBelow(after) && JobsOf(after.jobs, y.doc) == JobsOf(db.jobs, y.doc)
  {
    JobAdded(db.jobs, Job(Some(x.doc), Extraction, Queued, db.now), y.doc);
  }

  lemma StepKeepsStory(db: Db, h: Happening, y: Story, s: Services)
    requires InStory(db, y, s) && IdsBelow(db) && Possible(db, h, s)
    ensures InStory(After(db, h, s), y, s) && IdsBelow(After(db, h, s))
  {
    match h
    case Ran(j) =>
      if db.jobs[j].doc == Some(y.doc) {
        OwnJobMovesOn(db, y, j, s);
      } else {
        OtherJob(db, j, y.doc, s);
        StoryIsLeftAlone(db, RunJob(db, j, s), y, s);
      }
    case Arrived(x) =>
      StoryHasDoc(db, y, s);
      ArrivalIsElsewhere(db, x, y);
      StoryIsLeftAlone(db, After(db, h, s), y, s);
  }

  lemma StoryHasDoc(db: Db, y: Story, s: Services)
    requires InStory(db, y, s)
    ensures y.doc in db.docs
  {
  }

  lemma {:induction false} StoryHolds(db: Db, run: seq<Happening>, y: Story, s: Services)
    requires InStory(db, y, s) && IdsBelow(db) && Legal(db, run, s)
    ensures InStory(Exec(db, run, s), y, s)
    decreases |run|
  {
    if run != [] {
      StepKeepsStory(db, run[0], y, s);
      StoryHolds(After(db, run[0], s), run[1..], y, s);
    }
  }

  /** No row and no job of the document is there yet. */
  predicate Fresh(db: Db, doc: Id) {
    doc !in db.docs && NoRows(db, doc) && JobsOf(db.jobs, doc) == [] && IdsBelow(db)
  }

  lemma UploadBegins(db: Db, y: Story, s: Services)
    requires Fresh(db, y.doc)
    ensures var up := Upload(db, y.doc, y.topic, y.raw, y.contentType); AwaitsExtraction(up, y) && IdsBelow(up)
  {
    JobAdded(db.jobs, Job(Some(y.doc), Extraction, Queued, db.now), y.doc);
  }

  predicate NothingQueued(db: Db, doc: Id) {
    forall j | 0 <= j < |db.jobs| && db.jobs[j].doc == Some(doc) :: !db.jobs[j].status.Queued?
  }

  lemma {:induction false} LastIsQueued(jobs: seq<Job>, doc: Id)
    requires JobsOf(jobs, doc) != [] && JobsOf(jobs, doc)[|JobsOf(jobs, doc)| - 1].1 == Queued
    ensures exists j :: 0 <= j < |jobs| && jobs[j].doc == Some(doc) && jobs[j].status.Queued?
  {
    var last := jobs[|jobs| - 1];
    if last.doc != Some(doc) {
      LastIsQueued(jobs[..|jobs| - 1], doc);
      var j :| 0 <= j < |jobs[..|jobs| - 1]| && jobs[..|jobs| - 1][j].doc == Some(doc) && jobs[..|jobs| - 1][j].status.Queued?;
      assert jobs[j].doc == Some(doc);
    }
  }

  /** Whatever else the pool does in between, in whatever order: once nothing of the uploaded
      document is queued any more, it is ready exactly when its three jobs completed, and
      then it is published; otherwise it is failed, the last of its jobs failed, and no later
      one exists. */
  lemma ReadyIffAllComplete(db: Db, y: Story, run: seq<Happening>, s: Services)
    requires Fresh(db, y.doc)
    requires Legal(Upload(db, y.doc, y.topic, y.raw, y.contentType), run, s)
    requires NothingQueued(Exec(Upload(db, y.doc, y.topic, y.raw, y.contentType), run, s), y.doc)
    ensures Settled(Exec(Upload(db, y.doc, y.topic, y.raw, y.contentType), run, s), y, s)
  {
    var up := Upload(db, y.doc, y.topic, y.raw, y.contentType);
    UploadBegins(db, y, s);
    StoryHolds(up, run, y, s);
    var end := Exec(up, run, s);
    if !Settled(end, y, s) {
      LastIsQueued(end.jobs, y.doc);
    }
  }
}

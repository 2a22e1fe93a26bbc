/** The jobs of an uploaded document statement by statement, while anything may happen
    elsewhere between any two of their statements. */
module Meanwhile {
  import opened Ordering
  import opened Tables
  import opened Splitting
  import opened Embeddings
  import opened Pipeline
  import opened Workers
  import opened Tasks
  import opened EndToEnd
  import Calls
  import Queue

  /** The tables, and the pipeline jobs that a poller is working on. */
  datatype Scene = Scene(db: Db, running: map<nat, Task>)

  /** A pipeline job of any document is claimed, issues its next statement or gets its final
      status; or something else happens that does not concern the document. */
  datatype Moment = Claims(j: nat) | Moves(j: nat) | Closes(j: nat) | Elsewhere(db: Db)

  /** What everybody else may do in one statement: not touch the document's rows, vectors,
      status and jobs. */
  predicate Around(db: Db, db': Db, doc: Id) {
    && EndToEnd.Elsewhere(db, db', doc)
    && |db.jobs| <= |db'.jobs|
    && (forall j | 0 <= j < |db.jobs| :: db'.jobs[j].doc == db.jobs[j].doc && (db.jobs[j].doc == Some(doc) ==> db'.jobs[j] == db.jobs[j]))
    && (forall j | |db.jobs| <= j < |db'.jobs| :: db'.jobs[j].doc != Some(doc))
  }

  predicate Possible(w: Scene, doc: Id, e: Moment) {
    match e
    case Claims(j) =>
      j < |w.db.jobs| && w.db.jobs[j].doc.Some? && w.db.jobs[j].status.Queued? && IsPipeline(w.db.jobs[j].kind) && j !in w.running
    case Moves(j) => j in w.running && !w.running[j].Ended?
    case Closes(j) => j in w.running && w.running[j].Ended? && j < |w.db.jobs|
    case Elsewhere(db') => Around(w.db, db', doc)
  }

  function After(w: Scene, doc: Id, e: Moment, s: Services): Scene
    requires Possible(w, doc, e)
  {
    match e
    case Claims(j) => Scene(Claimed(w.db, j), w.running[j := TaskOf(w.db.jobs[j].kind, w.db.jobs[j].doc.value)])
    case Moves(j) => var (db', t') := Advance(w.db, w.running[j], s); Scene(db', w.running[j := t'])
    case Closes(j) =>
      Scene(w.db.(jobs := Queue.SetStatus(w.db.jobs, j, Workers.Ended(w.running[j].outcome))), w.running - {j})
    case Elsewhere(db') => w.(db := db')
  }

  predicate Legal(w: Scene, doc: Id, run: seq<Moment>, s: Services)
    decreases |run|
  {
    run == [] || (Possible(w, doc, run[0]) && Legal(After(w, doc, run[0], s), doc, run[1..], s))
  }

  function Exec(w: Scene, doc: Id, run: seq<Moment>, s: Services): Scene
    requires Legal(w, doc, run, s)
    decreases |run|
  {
    if run == [] then w else Exec(After(w, doc, run[0], s), doc, run[1..], s)
  }

  // ----- the rows of the document ------------------------------------------------------------

  /** The document's rows are `ids`, in order of creation, holding the first pieces in order;
      the first `tagged` of them carry their embedding id. */
  predicate RowsAre(db: Db, doc: Id, ids: seq<Id>, pieces: seq<Text>, tagged: nat) {
    && |ids| <= |pieces|
    && (forall i, j | 0 <= i < j < |ids| :: ids[i] < ids[j])
    && (forall c | c in db.chunks && db.chunks[c].doc == doc :: c in ids)
    && (forall i | 0 <= i < |ids| :: ids[i] in db.chunks && ids[i] < db.next &&
          db.chunks[ids[i]] == PieceRow(doc, i, pieces[i], if i < tagged then Some(ids[i]) else None))
  }

  predicate VectorsAre(db: Db, ids: seq<Id>, vs: seq<Vector>, model: string) {
    |vs| == |ids| && forall i | 0 <= i < |ids| :: HasEntry(db.vectors, ids[i], Entry(vs[i], WithModel(map[], model)))
  }

  lemma RowsStay(db: Db, db': Db, doc: Id, ids: seq<Id>, pieces: seq<Text>, tagged: nat)
    requires RowsAre(db, doc, ids, pieces, tagged) && EndToEnd.Elsewhere(db, db', doc)
    ensures RowsAre(db', doc, ids, pieces, tagged)
  {
    forall i | 0 <= i < |ids|
      ensures ids[i] in db'.chunks && db'.chunks[ids[i]] == db.chunks[ids[i]]
    {
      assert db.chunks[ids[i]].doc == doc;
    }
  }

  lemma VectorsStay(db: Db, db': Db, doc: Id, ids: seq<Id>, pieces: seq<Text>, tagged: nat, vs: seq<Vector>, model: string)
    requires RowsAre(db, doc, ids, pieces, tagged) && VectorsAre(db, ids, vs, model) && EndToEnd.Elsewhere(db, db', doc)
    ensures VectorsAre(db', ids, vs, model)
  {
    forall i | 0 <= i < |ids|
      ensures HasEntry(db'.vectors, ids[i], Entry(vs[i], WithModel(map[], model)))
    {
      assert HasEntry(db.vectors, ids[i], Entry(vs[i], WithModel(map[], model)));
      assert db.chunks[ids[i]].doc == doc;
    }
  }

  lemma RowInserted(db: Db, doc: Id, ids: seq<Id>, pieces: seq<Text>)
    requires RowsAre(db, doc, ids, pieces, 0) && |ids| < |pieces| && IdsBelow(db)
    ensures RowsAre(InsertChunk(db, doc, pieces[|ids|], |ids| + 1, map[]), doc, ids + [db.next], pieces, 0)
  {
    var db', ids' := InsertChunk(db, doc, pieces[|ids|], |ids| + 1, map[]), ids + [db.next];
    forall c | c in db'.chunks && db'.chunks[c].doc == doc
      ensures c in ids'
    {
      if c == db.next {
        assert ids'[|ids|] == c;
      } else {
        assert c in ids;
      }
    }
  }

  lemma RowTagged(db: Db, doc: Id, ids: seq<Id>, pieces: seq<Text>, i: nat)
    requires RowsAre(db, doc, ids, pieces, i) && i < |ids|
    ensures RowsAre(SetEmbeddingId(db, ids[i], ids[i]), doc, ids, pieces, i + 1)
  {
    var db' := SetEmbeddingId(db, ids[i], ids[i]);
    forall k | 0 <= k < |ids|
      ensures db'.chunks[ids[k]] == PieceRow(doc, k, pieces[k], if k < i + 1 then Some(ids[k]) else None)
    {
      assert k != i ==> ids[k] != ids[i];
    }
  }

  /** The embedding job finds the rows, all of them, in order. */
  lemma FindsTheRows(db: Db, doc: Id, ids: seq<Id>, pieces: seq<Text>)
    requires RowsAre(db, doc, ids, pieces, 0) && |ids| == |pieces|
    ensures Todo(db, doc) == ids
  {
    forall c
      ensures c in ids <==> c in ActiveIn(db, doc)
    {
      if c in ids {
        var i :| 0 <= i < |ids| && ids[i] == c;
        assert db.chunks[c] == PieceRow(doc, i, pieces[i], None);
      }
    }
    InSequence(db, doc, ids, pieces);
    SortedOnlyOneWay(ids, ActiveIn(db, doc), SequenceKey(db));
    AllUnembedded(db, ids);
  }

  lemma InSequence(db: Db, doc: Id, ids: seq<Id>, pieces: seq<Text>)
    requires RowsAre(db, doc, ids, pieces, 0)
    ensures StrictlyBy(ids, SequenceKey(db))
    ensures forall c | c in ids :: c in db.chunks && db.chunks[c].embeddingId.None?
  {
    assert forall i | 0 <= i < |ids| :: SequenceKey(db)[ids[i]] == i + 1;
  }

  lemma ReadsThePieces(db: Db, doc: Id, ids: seq<Id>, pieces: seq<Text>)
    requires RowsAre(db, doc, ids, pieces, 0) && |ids| == |pieces| && forall c | c in ids :: c in db.chunks
    ensures Texts(db, ids) == pieces && forall i | 0 <= i < |ids| :: Metas(db, ids)[i] == map[]
  {
    forall i | 0 <= i < |ids|
      ensures Texts(db, ids)[i] == pieces[i] && Metas(db, ids)[i] == map[]
    {
      assert db.chunks[ids[i]] == PieceRow(doc, i, pieces[i], None);
    }
  }

  lemma BatchIsStored(db: Db, ids: seq<Id>, entries: seq<Entry>, vs: seq<Vector>, model: string)
    requires |vs| == |ids| == |entries| && (forall i, j | 0 <= i < j < |ids| :: ids[i] != ids[j])
    requires forall i | 0 <= i < |ids| :: entries[i] == Entry(vs[i], WithModel(map[], model))
    ensures VectorsAre(db.(vectors := db.vectors + Batch(ids, entries)), ids, vs, model)
  {
    forall i | 0 <= i < |ids|
      ensures HasEntry(db.vectors + Batch(ids, entries), ids[i], Entry(vs[i], WithModel(map[], model)))
    {
      BatchAt(ids, entries, i);
    }
  }

  // ----- the document at each statement of its own jobs ------------------------------------------

  /** Where a job stands: queued, at a statement of its worker, or with its final status. */
  datatype At = Waits | Does(task: Task) | Closed(status: JobStatus)

  predicate Succeeds(at: At, doc: Id) {
    at == Does(Task.Ended(doc, Succeeded)) || at == Closed(Completed)
  }

  predicate Fails(at: At, doc: Id) {
    at == Closed(Failed) || (at.Does? && at.task.Ended? && at.task.doc == doc && at.task.outcome.FailedWith?)
  }

  /** About to mark the document as failed. */
  predicate GivesUp(at: At, doc: Id) {
    at.Does? && at.task.Concluding? && at.task.doc == doc && at.task.status == FailedDoc && at.task.outcome.FailedWith?
  }

  /** The job has failed or is about to; the document says which. */
  predicate GoesWrong(db: Db, y: Story, at: At, extracted: Text) {
    (GivesUp(at, y.doc) && HasStatus(db, y, Processing, extracted)) || (Fails(at, y.doc) && HasStatus(db, y, FailedDoc, extracted))
  }

  predicate ExtractionAt(db: Db, y: Story, at: At, s: Services) {
    NoRows(db, y.doc) &&
    if at == Waits || at == Does(Starting(y.doc)) then HasStatus(db, y, Pending, [])
    else if at == Does(Reading(y.doc)) then HasStatus(db, y, Processing, [])
    else if TextOf(y, s).Err? then GoesWrong(db, y, at, [])
    else if at == Does(Saving(y.doc, TextOf(y, s).value)) then HasStatus(db, y, Processing, [])
    else at == Does(Spawning(y.doc, Chunking)) && HasStatus(db, y, Processing, TextOf(y, s).value)
  }

  predicate ChunkingAt(db: Db, y: Story, at: At, s: Services, ids: seq<Id>) {
    TextOf(y, s).Ok? &&
    if at == Waits || at == Does(Dividing(y.doc)) then NoRows(db, y.doc) && HasStatus(db, y, Processing, TextOf(y, s).value)
    else if PiecesFor(y, s).Err? then NoRows(db, y.doc) && GoesWrong(db, y, at, TextOf(y, s).value)
    else
      var pieces := PiecesFor(y, s).value;
      && RowsAre(db, y.doc, ids, pieces, 0) && HasStatus(db, y, Processing, TextOf(y, s).value)
      && (at == Does(Inserting(y.doc, pieces, |ids|)) || (at == Does(Spawning(y.doc, Embedding)) && |ids| == |pieces|))
  }

  predicate IsAsking(at: At, doc: Id, ids: seq<Id>, pieces: seq<Text>) {
    && at.Does? && at.task.Asking? && at.task.doc == doc && at.task.ids == ids && at.task.texts == pieces
    && |at.task.metas| == |ids| && forall i | 0 <= i < |ids| :: at.task.metas[i] == map[]
  }

  predicate IsStoring(at: At, doc: Id, ids: seq<Id>, vs: seq<Vector>, model: string) {
    && at.Does? && at.task.Storing? && at.task.doc == doc && at.task.ids == ids && |at.task.entries| == |ids| == |vs|
    && forall i | 0 <= i < |ids| :: at.task.entries[i] == Entry(vs[i], WithModel(map[], model))
  }

  predicate IsTagging(at: At, doc: Id, ids: seq<Id>) {
    at.Does? && at.task.Tagging? && at.task.doc == doc && at.task.ids == ids && at.task.i <= |ids|
  }

  /** The document's rows `ids` hold the pieces in order, the first `tagged` of them with their
      embedding id. */
  predicate Held(db: Db, y: Story, s: Services, ids: seq<Id>, tagged: nat) {
    PiecesFor(y, s).Ok? && |ids| == |PiecesFor(y, s).value| && RowsAre(db, y.doc, ids, PiecesFor(y, s).value, tagged)
  }

  /** And every row has the provider's vector for its piece. */
  predicate Stored(db: Db, y: Story, s: Services, ids: seq<Id>, tagged: nat) {
    Answered(y, s) && Held(db, y, s, ids, tagged) && VectorsAre(db, ids, s.provider(PiecesFor(y, s).value).value, s.model)
  }

  predicate StoringAt(db: Db, y: Story, at: At, s: Services, ids: seq<Id>)
    requires Answered(y, s)
  {
    if IsStoring(at, y.doc, ids, s.provider(PiecesFor(y, s).value).value, s.model) then
      Held(db, y, s, ids, 0) && HasStatus(db, y, Processing, TextOf(y, s).value)
    else if IsTagging(at, y.doc, ids) then
      Stored(db, y, s, ids, at.task.i) && HasStatus(db, y, Processing, TextOf(y, s).value)
    else
      && Stored(db, y, s, ids, |ids|)
      && ((at == Does(Concluding(y.doc, Ready, Succeeded)) && HasStatus(db, y, Processing, TextOf(y, s).value)) ||
          (Succeeds(at, y.doc) && HasStatus(db, y, Ready, TextOf(y, s).value)))
  }

  predicate EmbeddingAt(db: Db, y: Story, at: At, s: Services, ids: seq<Id>) {
    PiecesFor(y, s).Ok? &&
    if at == Waits || at == Does(Looking(y.doc)) || IsAsking(at, y.doc, ids, PiecesFor(y, s).value) then
      Held(db, y, s, ids, 0) && HasStatus(db, y, Processing, TextOf(y, s).value)
    else if Answered(y, s) then StoringAt(db, y, at, s, ids)
    else GoesWrong(db, y, at, TextOf(y, s).value)
  }

  /** The document's `k`-th job. */
  function KindAt(k: nat): JobKind {
    if k == 0 then Extraction else if k == 1 then Chunking else Embedding
  }

  predicate StageAt(db: Db, y: Story, k: nat, at: At, s: Services, ids: seq<Id>) {
    if k == 0 then ExtractionAt(db, y, at, s) else if k == 1 then ChunkingAt(db, y, at, s, ids) else EmbeddingAt(db, y, at, s, ids)
  }

  // ----- each statement keeps it -------------------------------------------------------------------

  lemma HeldStays(db: Db, db': Db, y: Story, s: Services, ids: seq<Id>, tagged: nat)
    requires Held(db, y, s, ids, tagged) && EndToEnd.Elsewhere(db, db', y.doc)
    ensures Held(db', y, s, ids, tagged)
    ensures Stored(db, y, s, ids, tagged) ==> Stored(db', y, s, ids, tagged)
  {
    RowsStay(db, db', y.doc, ids, PiecesFor(y, s).value, tagged);
    if Stored(db, y, s, ids, tagged) {
      VectorsStay(db, db', y.doc, ids, PiecesFor(y, s).value, tagged, s.provider(PiecesFor(y, s).value).value, s.model);
    }
  }

  lemma EmbeddingStays(db: Db, db': Db, y: Story, at: At, s: Services, ids: seq<Id>)
    requires EmbeddingAt(db, y, at, s, ids) && EndToEnd.Elsewhere(db, db', y.doc)
    ensures EmbeddingAt(db', y, at, s, ids)
  {
    if Held(db, y, s, ids, 0) {
      HeldStays(db, db', y, s, ids, 0);
    }
    if IsTagging(at, y.doc, ids) && Held(db, y, s, ids, at.task.i) {
      HeldStays(db, db', y, s, ids, at.task.i);
    }
    if Held(db, y, s, ids, |ids|) {
      HeldStays(db, db', y, s, ids, |ids|);
    }
  }

  lemma ChunkingStays(db: Db, db': Db, y: Story, at: At, s: Services, ids: seq<Id>)
    requires ChunkingAt(db, y, at, s, ids) && EndToEnd.Elsewhere(db, db', y.doc)
    ensures ChunkingAt(db', y, at, s, ids)
  {
    if PiecesFor(y, s).Ok? && RowsAre(db, y.doc, ids, PiecesFor(y, s).value, 0) {
      RowsStay(db, db', y.doc, ids, PiecesFor(y, s).value, 0);
    }
  }

  lemma StageStays(db: Db, db': Db, y: Story, k: nat, at: At, s: Services, ids: seq<Id>)
    requires StageAt(db, y, k, at, s, ids) && EndToEnd.Elsewhere(db, db', y.doc)
    ensures StageAt(db', y, k, at, s, ids)
  {
    if k == 1 {
      ChunkingStays(db, db', y, at, s, ids);
    } else if k > 1 {
      EmbeddingStays(db, db', y, at, s, ids);
    }
  }

  lemma ClaimKeepsStage(db: Db, y: Story, k: nat, s: Services, ids: seq<Id>)
    requires StageAt(db, y, k, Waits, s, ids)
    ensures StageAt(db, y, k, Does(TaskOf(KindAt(k), y.doc)), s, ids)
  {
  }

  lemma CloseKeepsStage(db: Db, y: Story, k: nat, t: Task, s: Services, ids: seq<Id>)
    requires StageAt(db, y, k, Does(t), s, ids) && t.Ended?
    ensures StageAt(db, y, k, Closed(Workers.Ended(t.outcome)), s, ids)
  {
  }

  lemma ExtractionMoves(db: Db, y: Story, t: Task, s: Services)
    requires ExtractionAt(db, y, Does(t), s) && !t.Ended? && !t.Spawning?
    ensures var (db', t') := Advance(db, t, s); ExtractionAt(db', y, Does(t'), s) && db' == db.(docs := db'.docs)
  {
  }

  lemma ExtractionHandsOver(db: Db, y: Story, t: Task, s: Services)
    requires ExtractionAt(db, y, Does(t), s) && t.Spawning?
    ensures Advance(db, t, s) == (InsertJob(db, Some(y.doc), Chunking), Task.Ended(y.doc, Succeeded))
    ensures ChunkingAt(Advance(db, t, s).0, y, Waits, s, [])
  {
  }

  lemma DividingMoves(db: Db, y: Story, s: Services)
    requires ChunkingAt(db, y, Does(Dividing(y.doc)), s, [])
    ensures var (db', t') := Advance(db, Dividing(y.doc), s); ChunkingAt(db', y, Does(t'), s, []) && db' == db
  {
    assert StrategyFor(db, y.doc, s) == s.strategies(y.topic);
  }

  /** The loop of the chunking job at one of its pieces. */
  lemma InsertingMoves(db: Db, y: Story, t: Task, s: Services, ids: seq<Id>) returns (ids': seq<Id>)
    requires ChunkingAt(db, y, Does(t), s, ids) && t.Inserting? && IdsBelow(db)
    ensures var (db', t') := Advance(db, t, s); ChunkingAt(db', y, Does(t'), s, ids') && db'.jobs == db.jobs && IdsBelow(db')
  {
    var pieces := PiecesFor(y, s).value;
    if |ids| < |pieces| {
      RowInserted(db, y.doc, ids, pieces);
      ids' := ids + [db.next];
    } else {
      ids' := ids;
    }
  }

  lemma GivingUpMoves(db: Db, y: Story, t: Task, s: Services, extracted: Text)
    requires GoesWrong(db, y, Does(t), extracted) && !t.Ended?
    ensures var (db', t') := Advance(db, t, s); GoesWrong(db', y, Does(t'), extracted) && db' == db.(docs := db'.docs)
  {
  }

  lemma ChunkingMoves(db: Db, y: Story, t: Task, s: Services, ids: seq<Id>) returns (ids': seq<Id>)
    requires ChunkingAt(db, y, Does(t), s, ids) && !t.Ended? && !t.Spawning? && IdsBelow(db)
    ensures var (db', t') := Advance(db, t, s); ChunkingAt(db', y, Does(t'), s, ids') && db'.jobs == db.jobs && IdsBelow(db')
  {
    ids' := ids;
    if t.Dividing? {
      DividingMoves(db, y, s);
      ids' := [];
    } else if t.Inserting? {
      ids' := InsertingMoves(db, y, t, s, ids);
    } else {
      GivingUpMoves(db, y, t, s, TextOf(y, s).value);
    }
  }

  lemma ChunkingHandsOver(db: Db, y: Story, t: Task, s: Services, ids: seq<Id>)
    requires ChunkingAt(db, y, Does(t), s, ids) && t.Spawning?
    ensures Advance(db, t, s) == (InsertJob(db, Some(y.doc), Embedding), Task.Ended(y.doc, Succeeded))
    ensures EmbeddingAt(Advance(db, t, s).0, y, Waits, s, ids)
  {
    var db' := InsertJob(db, Some(y.doc), Embedding);
    assert RowsAre(db', y.doc, ids, PiecesFor(y, s).value, 0);
  }

  lemma LooksAtTheRows(db: Db, doc: Id, ids: seq<Id>, pieces: seq<Text>)
    requires RowsAre(db, doc, ids, pieces, 0) && |ids| == |pieces| && pieces != []
    ensures IsAsking(Does(Look(db, doc)), doc, ids, pieces)
  {
    FindsTheRows(db, doc, ids, pieces);
    ReadsThePieces(db, doc, ids, pieces);
  }

  lemma AskingIsAt(db: Db, y: Story, at: At, s: Services, ids: seq<Id>)
    requires Held(db, y, s, ids, 0) && HasStatus(db, y, Processing, TextOf(y, s).value) && IsAsking(at, y.doc, ids, PiecesFor(y, s).value)
    ensures EmbeddingAt(db, y, at, s, ids)
  {
  }

  lemma LookingHolds(db: Db, y: Story, s: Services, ids: seq<Id>)
    requires EmbeddingAt(db, y, Does(Looking(y.doc)), s, ids)
    ensures Held(db, y, s, ids, 0) && HasStatus(db, y, Processing, TextOf(y, s).value) && PiecesFor(y, s).value != []
  {
    PiecesAreSome(TextOf(y, s).value, s.strategies(y.topic), s.splitter);
  }

  lemma LookingMoves(db: Db, y: Story, s: Services, ids: seq<Id>)
    requires EmbeddingAt(db, y, Does(Looking(y.doc)), s, ids)
    ensures EmbeddingAt(db, y, Does(Look(db, y.doc)), s, ids)
  {
    LookingHolds(db, y, s, ids);
    LooksAtTheRows(db, y.doc, ids, PiecesFor(y, s).value);
    AskingIsAt(db, y, Does(Look(db, y.doc)), s, ids);
  }

  lemma AskingMoves(db: Db, y: Story, t: Task, s: Services, ids: seq<Id>)
    requires EmbeddingAt(db, y, Does(t), s, ids) && t.Asking?
    ensures var (db', t') := Advance(db, t, s); EmbeddingAt(db', y, Does(t'), s, ids) && db' == db
  {
    var t' := Answer(t, s);
    if Answered(y, s) {
      assert IsStoring(Does(t'), y.doc, ids, s.provider(PiecesFor(y, s).value).value, s.model);
    } else {
      assert GivesUp(Does(t'), y.doc);
    }
  }

  lemma StoringMoves(db: Db, y: Story, t: Task, s: Services, ids: seq<Id>)
    requires EmbeddingAt(db, y, Does(t), s, ids) && t.Storing?
    ensures var (db', t') := Advance(db, t, s); EmbeddingAt(db', y, Does(t'), s, ids) && db' == db.(vectors := db'.vectors)
  {
    var pieces := PiecesFor(y, s).value;
    var vs := s.provider(pieces).value;
    BatchIsStored(db, ids, t.entries, vs, s.model);
    var db' := db.(vectors := db.vectors + Batch(ids, t.entries));
    assert RowsAre(db', y.doc, ids, pieces, 0);
  }

  lemma TaggingMoves(db: Db, y: Story, t: Task, s: Services, ids: seq<Id>)
    requires EmbeddingAt(db, y, Does(t), s, ids) && t.Tagging?
    ensures var (db', t') := Advance(db, t, s); EmbeddingAt(db', y, Does(t'), s, ids) && db'.jobs == db.jobs
  {
    if t.i < |ids| {
      RowTagged(db, y.doc, ids, PiecesFor(y, s).value, t.i);
    }
  }

  lemma ConcludingMoves(db: Db, y: Story, t: Task, s: Services, ids: seq<Id>)
    requires EmbeddingAt(db, y, Does(t), s, ids) && t.Concluding?
    ensures var (db', t') := Advance(db, t, s); EmbeddingAt(db', y, Does(t'), s, ids) && db' == db.(docs := db'.docs)
  {
    if Answered(y, s) {
      var (db', t') := Advance(db, t, s);
      assert RowsAre(db', y.doc, ids, PiecesFor(y, s).value, |ids|);
    } else {
      GivingUpMoves(db, y, t, s, TextOf(y, s).value);
    }
  }

  lemma EmbeddingMoves(db: Db, y: Story, t: Task, s: Services, ids: seq<Id>)
    requires EmbeddingAt(db, y, Does(t), s, ids) && !t.Ended? && IdsBelow(db)
    ensures var (db', t') := Advance(db, t, s); EmbeddingAt(db', y, Does(t'), s, ids) && db'.jobs == db.jobs && IdsBelow(db')
  {
    if t.Looking? {
      LookingMoves(db, y, s, ids);
    } else if t.Asking? {
      AskingMoves(db, y, t, s, ids);
    } else if t.Storing? {
      StoringMoves(db, y, t, s, ids);
    } else if t.Tagging? {
      TaggingMoves(db, y, t, s, ids);
    } else {
      ConcludingMoves(db, y, t, s, ids);
    }
  }

  /** A statement of the document's `k`-th job that inserts no job. */
  lemma StageMoves(db: Db, y: Story, k: nat, t: Task, s: Services, ids: seq<Id>) returns (ids': seq<Id>)
    requires StageAt(db, y, k, Does(t), s, ids) && !t.Ended? && !t.Spawning? && IdsBelow(db)
    ensures var (db', t') := Advance(db, t, s); StageAt(db', y, k, Does(t'), s, ids') && db'.jobs == db.jobs && IdsBelow(db')
  {
    ids' := ids;
    if k == 0 {
      ExtractionMoves(db, y, t, s);
    } else if k == 1 {
      ids' := ChunkingMoves(db, y, t, s, ids);
    } else {
      EmbeddingMoves(db, y, t, s, ids);
    }
  }

  /** The statement of the `k`-th job that inserts the next one. */
  lemma StageHandsOver(db: Db, y: Story, k: nat, t: Task, s: Services, ids: seq<Id>) returns (ids': seq<Id>)
    requires StageAt(db, y, k, Does(t), s, ids) && t.Spawning?
    ensures k < 2 && Advance(db, t, s) == (InsertJob(db, Some(y.doc), KindAt(k + 1)), Task.Ended(y.doc, Succeeded))
    ensures StageAt(Advance(db, t, s).0, y, k + 1, Waits, s, ids')
  {
    if k == 0 {
      ExtractionHandsOver(db, y, t, s);
      ids' := [];
    } else {
      ChunkingHandsOver(db, y, t, s, ids);
      ids' := ids;
    }
  }

  // ----- the other documents ---------------------------------------------------------------------

  /** The chunks a job in flight has listed to work on. */
  function Listed(t: Task): seq<Id> {
    if t.Asking? || t.Storing? || t.Tagging? then t.ids else []
  }

  /** A job of another document, which has listed no row of this one. */
  predicate Foreign(db: Db, t: Task, doc: Id) {
    t.doc != doc && forall c | c in Listed(t) :: c < db.next && (c in db.chunks ==> db.chunks[c].doc != doc)
  }

  /** Rows of the document are only ever added at the end. */
  predicate Grows(db: Db, db': Db, doc: Id) {
    && db.next <= db'.next
    && forall c | c in db'.chunks && c < db.next && db'.chunks[c].doc == doc :: c in db.chunks && db.chunks[c].doc == doc
  }

  lemma ForeignStays(db: Db, db': Db, t: Task, doc: Id)
    requires Foreign(db, t, doc) && Grows(db, db', doc)
    ensures Foreign(db', t, doc)
  {
  }

  lemma StatementGrows(db: Db, t: Task, doc: Id, s: Services)
    ensures Grows(db, Advance(db, t, s).0, doc)
  {
  }

  lemma ForeignLooks(db: Db, other: Id, doc: Id)
    requires other != doc && IdsBelow(db)
    ensures Foreign(db, Look(db, other), doc)
  {
    forall c | c in Todo(db, other)
      ensures c in db.chunks && db.chunks[c].doc == other
    {
      assert c in ListByDocument(db, other) && c in ActiveIn(db, other);
    }
  }

  lemma ForeignMoves(db: Db, t: Task, doc: Id, s: Services)
    requires Foreign(db, t, doc) && IdsBelow(db)
    ensures Foreign(db, Advance(db, t, s).1, doc)
  {
    if t.Looking? {
      ForeignLooks(db, t.doc, doc);
    }
  }

  lemma InsertIsElsewhere(db: Db, other: Id, content: Text, sequence: int, meta: Meta, doc: Id)
    requires other != doc && IdsBelow(db)
    ensures EndToEnd.Elsewhere(db, InsertChunk(db, other, content, sequence, meta), doc)
  {
  }

  lemma StoreIsElsewhere(db: Db, ids: seq<Id>, entries: seq<Entry>, doc: Id)
    requires IdsBelow(db) && |ids| == |entries| && forall c | c in ids && c in db.chunks :: db.chunks[c].doc != doc
    ensures EndToEnd.Elsewhere(db, db.(vectors := db.vectors + Batch(ids, entries)), doc)
  {
  }

  lemma TagIsElsewhere(db: Db, c: Id, doc: Id)
    requires IdsBelow(db) && (c in db.chunks ==> db.chunks[c].doc != doc)
    ensures EndToEnd.Elsewhere(db, SetEmbeddingId(db, c, c), doc)
  {
  }

  lemma ForeignStatusIsElsewhere(db: Db, t: Task, doc: Id, s: Services)
    requires Foreign(db, t, doc) && IdsBelow(db) && !t.Inserting? && !t.Storing? && !t.Tagging?
    ensures EndToEnd.Elsewhere(db, Advance(db, t, s).0, doc)
  {
  }

  lemma ForeignIsElsewhere(db: Db, t: Task, doc: Id, s: Services)
    requires Foreign(db, t, doc) && IdsBelow(db)
    ensures EndToEnd.Elsewhere(db, Advance(db, t, s).0, doc)
  {
    if t.Inserting? {
      if t.i < |t.pieces| {
        InsertIsElsewhere(db, t.doc, t.pieces[t.i], t.i + 1, map[], doc);
      }
    } else if t.Storing? {
      if |t.ids| == |t.entries| {
        StoreIsElsewhere(db, t.ids, t.entries, doc);
      }
    } else if t.Tagging? {
      if t.i < |t.ids| {
        TagIsElsewhere(db, t.ids[t.i], doc);
      }
    } else {
      ForeignStatusIsElsewhere(db, t, doc, s);
    }
  }

  /** A statement of a job of another document does not concern this one. */
  lemma ForeignIsAround(db: Db, t: Task, doc: Id, s: Services)
    requires Foreign(db, t, doc) && IdsBelow(db)
    ensures Around(db, Advance(db, t, s).0, doc) && Foreign(Advance(db, t, s).0, Advance(db, t, s).1, doc)
  {
    ForeignIsElsewhere(db, t, doc, s);
    ForeignMoves(db, t, doc, s);
    StatementGrows(db, t, doc, s);
    ForeignStays(db, Advance(db, t, s).0, Advance(db, t, s).1, doc);
  }

  /** Neither a row of the document nor what one was compacted into. */
  predicate NotOf(db: Db, c: Id, doc: Id) {
    && c < db.next && (c in db.chunks ==> db.chunks[c].doc != doc)
    && forall k | k in db.chunks && db.chunks[k].doc == doc :: db.chunks[k].compactedBy != Some(c)
  }

  /** A compaction or uncompaction of chunks of another document. */
  predicate ForeignCall(db: Db, call: Calls.Call, doc: Id) {
    if call.Done? || call.Looking? then true
    else if call.Enqueuing? then call.doc != doc
    else if call.Deleting? || call.Unrecording? || call.Unstoring? || call.Restoring? then call.doc != doc && NotOf(db, call.summary, doc)
    else
      && call.plan.doc != doc && (forall c | c in call.plan.sources :: NotOf(db, c, doc))
      && (call.Numbering? || call.Creating? || NotOf(db, call.summary, doc))
  }

  lemma ForeignLinksAreAround(db: Db, call: Calls.Call, doc: Id)
    requires ForeignCall(db, call, doc) && IdsBelow(db) && (call.MovingSource? || call.MovingTarget?)
    ensures Around(db, Calls.Advance(db, call).0, doc)
  {
  }

  lemma ForeignRecordsAreAround(db: Db, call: Calls.Call, doc: Id)
    requires ForeignCall(db, call, doc) && IdsBelow(db) && (call.Recording? || call.Unrecording?)
    ensures Around(db, Calls.Advance(db, call).0, doc)
  {
  }

  lemma ForeignVectorsAreAround(db: Db, call: Calls.Call, doc: Id)
    requires ForeignCall(db, call, doc) && IdsBelow(db) && call.Storing?
    ensures Around(db, Calls.Advance(db, call).0, doc)
  {
  }

  lemma ForeignJobsAreAround(db: Db, call: Calls.Call, doc: Id)
    requires ForeignCall(db, call, doc) && IdsBelow(db) && call.Enqueuing?
    ensures Around(db, Calls.Advance(db, call).0, doc)
  {
  }

  lemma ForeignDropsAreAround(db: Db, call: Calls.Call, doc: Id)
    requires ForeignCall(db, call, doc) && IdsBelow(db) && (call.Dropping? || call.Unstoring?)
    ensures Around(db, Calls.Advance(db, call).0, doc)
  {
  }

  lemma ForeignRowsAreAround(db: Db, call: Calls.Call, doc: Id)
    requires ForeignCall(db, call, doc) && IdsBelow(db) && (call.Creating? || call.Tagging? || call.Deleting?)
    ensures Around(db, Calls.Advance(db, call).0, doc)
  {
    if call.Creating? {
      InsertIsElsewhere(db, call.plan.doc, call.plan.content, call.sequence, call.plan.meta, doc);
    } else if call.Tagging? {
      TagIsElsewhere(db, call.summary, doc);
    }
  }

  lemma ForeignStatusesAreAround(db: Db, call: Calls.Call, doc: Id)
    requires ForeignCall(db, call, doc) && IdsBelow(db) && (call.Marking? || call.Restoring?)
    ensures Around(db, Calls.Advance(db, call).0, doc)
  {
  }

  /** A statement of a compaction of another document does not concern this one. */
  lemma ForeignCallIsAround(db: Db, call: Calls.Call, doc: Id)
    requires ForeignCall(db, call, doc) && IdsBelow(db)
    ensures Around(db, Calls.Advance(db, call).0, doc)
  {
    if call.MovingSource? || call.MovingTarget? {
      ForeignLinksAreAround(db, call, doc);
    } else if call.Recording? || call.Unrecording? {
      ForeignRecordsAreAround(db, call, doc);
    } else if call.Storing? {
      ForeignVectorsAreAround(db, call, doc);
    } else if call.Enqueuing? {
      ForeignJobsAreAround(db, call, doc);
    } else if call.Dropping? || call.Unstoring? {
      ForeignDropsAreAround(db, call, doc);
    } else if call.Creating? || call.Tagging? || call.Deleting? {
      ForeignRowsAreAround(db, call, doc);
    } else if call.Marking? || call.Restoring? {
      ForeignStatusesAreAround(db, call, doc);
    }
  }

  // ----- runs --------------------------------------------------------------------------------------

  function Where(w: Scene, j: nat): At
    requires j < |w.db.jobs|
  {
    if j in w.running then Does(w.running[j]) else if w.db.jobs[j].status.Queued? then Waits else Closed(w.db.jobs[j].status)
  }

  /** The jobs of the document are `js`, in the order in which they were inserted. */
  predicate Lists(jobs: seq<Job>, doc: Id, js: seq<nat>) {
    && (forall k | 0 <= k < |js| :: js[k] < |jobs| && jobs[js[k]].doc == Some(doc) && jobs[js[k]].kind == KindAt(k))
    && (forall i, k | 0 <= i < k < |js| :: js[i] < js[k])
    && (forall j | 0 <= j < |jobs| && jobs[j].doc == Some(doc) :: j in js)
  }

  /** The running jobs are those in flight; those of other documents are foreign. */
  predicate RunningOk(w: Scene, doc: Id, js: seq<nat>) {
    && (forall j | j in js && j < |w.db.jobs| :: j in w.running <==> w.db.jobs[j].status.Running?)
    && (forall j | j in w.running && j !in js :: j < |w.db.jobs| && Foreign(w.db, w.running[j], doc))
  }

  predicate Earlier(w: Scene, doc: Id, js: seq<nat>) {
    forall k | 0 <= k < |js| - 1 :: js[k] < |w.db.jobs| && Succeeds(Where(w, js[k]), doc)
  }

  /** The document is at its `|js|`-th job, the jobs before it have succeeded. */
  predicate Ongoing(w: Scene, y: Story, s: Services, js: seq<nat>, ids: seq<Id>) {
    && 1 <= |js| <= 3 && Lists(w.db.jobs, y.doc, js) && RunningOk(w, y.doc, js) && Earlier(w, y.doc, js) && IdsBelow(w.db)
    && StageAt(w.db, y, |js| - 1, Where(w, js[|js| - 1]), s, ids)
  }

  /** Somebody else's step. */
  lemma AroundKeeps(w: Scene, w': Scene, y: Story, s: Services, js: seq<nat>, ids: seq<Id>)
    requires Ongoing(w, y, s, js, ids) && Around(w.db, w'.db, y.doc)
    requires forall j | j in js :: (j in w'.running <==> j in w.running) && (j in w.running ==> w'.running[j] == w.running[j])
    requires forall j | j in w'.running && j !in js :: j < |w'.db.jobs| && Foreign(w'.db, w'.running[j], y.doc)
    ensures Ongoing(w', y, s, js, ids)
  {
    assert forall k | 0 <= k < |js| :: js[k] in js && w'.db.jobs[js[k]] == w.db.jobs[js[k]] && Where(w', js[k]) == Where(w, js[k]);
    StageStays(w.db, w'.db, y, |js| - 1, Where(w, js[|js| - 1]), s, ids);
  }

  lemma OthersStayForeign(w: Scene, db': Db, doc: Id, js: seq<nat>)
    requires RunningOk(w, doc, js) && Grows(w.db, db', doc)
    ensures forall j | j in w.running && j !in js :: Foreign(db', w.running[j], doc)
  {
    forall j | j in w.running && j !in js
      ensures Foreign(db', w.running[j], doc)
    {
      ForeignStays(w.db, db', w.running[j], doc);
    }
  }

  lemma OtherStepIsAround(w: Scene, doc: Id, e: Moment, s: Services, js: seq<nat>)
    requires Lists(w.db.jobs, doc, js) && RunningOk(w, doc, js) && IdsBelow(w.db)
    requires Possible(w, doc, e) && (e.Elsewhere? || e.j !in js)
    ensures Around(w.db, After(w, doc, e, s).db, doc)
  {
    if e.Moves? {
      ForeignIsAround(w.db, w.running[e.j], doc, s);
    } else if e.Claims? || e.Closes? {
      assert w.db.jobs[e.j].doc != Some(doc);
    }
  }

  lemma OtherStepIsForeign(w: Scene, doc: Id, e: Moment, s: Services, js: seq<nat>)
    requires Lists(w.db.jobs, doc, js) && RunningOk(w, doc, js) && IdsBelow(w.db)
    requires Possible(w, doc, e) && (e.Elsewhere? || e.j !in js)
    requires Around(w.db, After(w, doc, e, s).db, doc)
    ensures var w' := After(w, doc, e, s);
            forall j | j in w'.running && j !in js :: j < |w'.db.jobs| && Foreign(w'.db, w'.running[j], doc)
  {
    var w' := After(w, doc, e, s);
    OthersStayForeign(w, w'.db, doc, js);
    if e.Moves? {
      ForeignIsAround(w.db, w.running[e.j], doc, s);
    } else if e.Claims? {
      assert w.db.jobs[e.j].doc != Some(doc);
    }
  }

  lemma OtherStep(w: Scene, y: Story, e: Moment, s: Services, js: seq<nat>, ids: seq<Id>)
    requires Ongoing(w, y, s, js, ids) && Possible(w, y.doc, e) && (e.Elsewhere? || e.j !in js)
    ensures Ongoing(After(w, y.doc, e, s), y, s, js, ids)
  {
    OtherStepIsAround(w, y.doc, e, s, js);
    OtherStepIsForeign(w, y.doc, e, s, js);
    AroundKeeps(w, After(w, y.doc, e, s), y, s, js, ids);
  }

  lemma EarlierHasSucceeded(w: Scene, doc: Id, js: seq<nat>, j: nat)
    requires Earlier(w, doc, js) && j in js && j != js[|js| - 1]
    ensures j < |w.db.jobs| && Succeeds(Where(w, j), doc)
  {
    var k :| 0 <= k < |js| && js[k] == j;
  }

  /** Only the document's last job can still be queued or in flight. */
  lemma LastIsLive(w: Scene, y: Story, s: Services, js: seq<nat>, ids: seq<Id>, j: nat)
    requires Ongoing(w, y, s, js, ids) && j in js
    requires j < |w.db.jobs| && (Where(w, j) == Waits || (Where(w, j).Does? && !Where(w, j).task.Ended?))
    ensures j == js[|js| - 1]
  {
    if j != js[|js| - 1] {
      EarlierHasSucceeded(w, y.doc, js, j);
    }
  }

  /** A step that leaves the job table's length and the jobs other than `j` alone. */
  lemma OwnStepKeeps(w: Scene, w': Scene, y: Story, s: Services, js: seq<nat>, ids: seq<Id>, ids': seq<Id>, j: nat)
    requires Ongoing(w, y, s, js, ids) && j in js && j < |w.db.jobs| == |w'.db.jobs| && IdsBelow(w'.db) && Grows(w.db, w'.db, y.doc)
    requires w'.db.jobs == Queue.SetStatus(w.db.jobs, j, w'.db.jobs[j].status)
    requires forall i | i != j :: (i in w'.running <==> i in w.running) && (i in w.running ==> w'.running[i] == w.running[i])
    requires j in w'.running <==> w'.db.jobs[j].status.Running?
    requires j != js[|js| - 1] ==> Succeeds(Where(w', j), y.doc)
    requires StageAt(w'.db, y, |js| - 1, Where(w', js[|js| - 1]), s, ids')
    ensures Ongoing(w', y, s, js, ids')
  {
    OthersStayForeign(w, w'.db, y.doc, js);
    assert forall k | 0 <= k < |js| && js[k] != j :: Where(w', js[k]) == Where(w, js[k]);
  }

  lemma OwnClaim(w: Scene, y: Story, j: nat, s: Services, js: seq<nat>, ids: seq<Id>)
    requires Ongoing(w, y, s, js, ids) && Possible(w, y.doc, Claims(j)) && j in js
    ensures Ongoing(After(w, y.doc, Claims(j), s), y, s, js, ids)
  {
    var w' := After(w, y.doc, Claims(j), s);
    LastIsLive(w, y, s, js, ids, j);
    ClaimKeepsStage(w.db, y, |js| - 1, s, ids);
    StageStays(w.db, w'.db, y, |js| - 1, Where(w', j), s, ids);
    OwnStepKeeps(w, w', y, s, js, ids, ids, j);
  }

  lemma OwnClose(w: Scene, y: Story, j: nat, s: Services, js: seq<nat>, ids: seq<Id>)
    requires Ongoing(w, y, s, js, ids) && Possible(w, y.doc, Closes(j)) && j in js
    ensures Ongoing(After(w, y.doc, Closes(j), s), y, s, js, ids)
  {
    var w' := After(w, y.doc, Closes(j), s);
    var last := js[|js| - 1];
    if j == last {
      CloseKeepsStage(w.db, y, |js| - 1, w.running[j], s, ids);
    } else {
      EarlierHasSucceeded(w, y.doc, js, j);
      assert Where(w', last) == Where(w, last);
    }
    StageStays(w.db, w'.db, y, |js| - 1, Where(w', last), s, ids);
    OwnStepKeeps(w, w', y, s, js, ids, ids, j);
  }

  lemma OwnMove(w: Scene, y: Story, j: nat, s: Services, js: seq<nat>, ids: seq<Id>) returns (ids': seq<Id>)
    requires Ongoing(w, y, s, js, ids) && Possible(w, y.doc, Moves(j)) && j in js && !w.running[j].Spawning?
    ensures Ongoing(After(w, y.doc, Moves(j), s), y, s, js, ids')
  {
    LastIsLive(w, y, s, js, ids, j);
    ids' := StageMoves(w.db, y, |js| - 1, w.running[j], s, ids);
    StatementGrows(w.db, w.running[j], y.doc, s);
    OwnStepKeeps(w, After(w, y.doc, Moves(j), s), y, s, js, ids, ids', j);
  }

  lemma JobAppended(jobs: seq<Job>, doc: Id, js: seq<nat>, job: Job)
    requires Lists(jobs, doc, js) && job.doc == Some(doc) && job.kind == KindAt(|js|)
    ensures Lists(jobs + [job], doc, js + [|jobs|])
  {
    var js' := js + [|jobs|];
    forall j | 0 <= j < |jobs + [job]| && (jobs + [job])[j].doc == Some(doc)
      ensures j in js'
    {
      assert j == |jobs| ==> js'[|js|] == j;
      assert j < |jobs| ==> j in js;
    }
  }

  /** The last job has succeeded and the next one is queued. */
  lemma NextIsWaiting(w: Scene, w': Scene, y: Story, js: seq<nat>, kind: JobKind)
    requires js != [] && Lists(w.db.jobs, y.doc, js) && RunningOk(w, y.doc, js) && Earlier(w, y.doc, js)
    requires w'.db.jobs == w.db.jobs + [Job(Some(y.doc), kind, Queued, w.db.now)]
    requires js[|js| - 1] in w.running && w'.running == w.running[js[|js| - 1] := Task.Ended(y.doc, Succeeded)]
    ensures Earlier(w', y.doc, js + [|w.db.jobs|]) && Where(w', |w.db.jobs|) == Waits
  {
    var js' := js + [|w.db.jobs|];
    assert |w.db.jobs| !in js;
    forall k | 0 <= k < |js'| - 1
      ensures js'[k] < |w'.db.jobs| && Succeeds(Where(w', js'[k]), y.doc)
    {
      assert js'[k] == js[k];
      if k < |js| - 1 {
        assert js[k] < js[|js| - 1];
        assert Where(w', js[k]) == Where(w, js[k]);
      }
    }
  }

  lemma HandoverRuns(w: Scene, w': Scene, y: Story, js: seq<nat>, kind: JobKind)
    requires js != [] && Lists(w.db.jobs, y.doc, js) && RunningOk(w, y.doc, js) && Grows(w.db, w'.db, y.doc)
    requires w'.db.jobs == w.db.jobs + [Job(Some(y.doc), kind, Queued, w.db.now)]
    requires js[|js| - 1] in w.running && w'.running == w.running[js[|js| - 1] := Task.Ended(y.doc, Succeeded)]
    ensures RunningOk(w', y.doc, js + [|w.db.jobs|])
  {
    OthersStayForeign(w, w'.db, y.doc, js);
    var js' := js + [|w.db.jobs|];
    assert js'[|js|] == |w.db.jobs| && forall k | 0 <= k < |js| :: js'[k] == js[k];
    assert forall j :: j in js' <==> j in js || j == |w.db.jobs|;
    assert js[|js| - 1] in js;
  }

  lemma OwnHandover(w: Scene, y: Story, j: nat, s: Services, js: seq<nat>, ids: seq<Id>) returns (ids': seq<Id>)
    requires Ongoing(w, y, s, js, ids) && Possible(w, y.doc, Moves(j)) && j in js && w.running[j].Spawning?
    ensures Ongoing(After(w, y.doc, Moves(j), s), y, s, js + [|w.db.jobs|], ids')
  {
    var w', kind := After(w, y.doc, Moves(j), s), KindAt(|js|);
    LastIsLive(w, y, s, js, ids, j);
    ids' := StageHandsOver(w.db, y, |js| - 1, w.running[j], s, ids);
    JobAppended(w.db.jobs, y.doc, js, Job(Some(y.doc), kind, Queued, w.db.now));
    NextIsWaiting(w, w', y, js, kind);
    HandoverRuns(w, w', y, js, kind);
  }

  lemma StepKeepsOngoing(w: Scene, y: Story, e: Moment, s: Services, js: seq<nat>, ids: seq<Id>) returns (js': seq<nat>, ids': seq<Id>)
    requires Ongoing(w, y, s, js, ids) && Possible(w, y.doc, e)
    ensures Ongoing(After(w, y.doc, e, s), y, s, js', ids')
  {
    js', ids' := js, ids;
    if e.Elsewhere? || e.j !in js {
      OtherStep(w, y, e, s, js, ids);
    } else if e.Claims? {
      OwnClaim(w, y, e.j, s, js, ids);
    } else if e.Closes? {
      OwnClose(w, y, e.j, s, js, ids);
    } else if w.running[e.j].Spawning? {
      js' := js + [|w.db.jobs|];
      ids' := OwnHandover(w, y, e.j, s, js, ids);
    } else {
      ids' := OwnMove(w, y, e.j, s, js, ids);
    }
  }

  /** At every point of every run the document is at a statement of one of its jobs. */
  lemma {:induction false} AlwaysOngoing(w: Scene, y: Story, run: seq<Moment>, s: Services, js: seq<nat>, ids: seq<Id>)
    returns (js': seq<nat>, ids': seq<Id>)
    requires Ongoing(w, y, s, js, ids) && Legal(w, y.doc, run, s)
    ensures Ongoing(Exec(w, y.doc, run, s), y, s, js', ids')
    decreases |run|
  {
    if run == [] {
      js', ids' := js, ids;
    } else {
      js', ids' := StepKeepsOngoing(w, y, run[0], s, js, ids);
      js', ids' := AlwaysOngoing(After(w, y.doc, run[0], s), y, run[1..], s, js', ids');
    }
  }

  // ----- the end -----------------------------------------------------------------------------------

  lemma NoJobs(jobs: seq<Job>, doc: Id, j: nat)
    requires JobsOf(jobs, doc) == [] && j < |jobs|
    ensures jobs[j].doc != Some(doc)
  {
    if jobs[j].doc == Some(doc) {
      OwnJobSet(jobs, doc, j, Queued);
    }
  }

  /** The kinds and statuses of the jobs `js`. */
  function Seen(jobs: seq<Job>, js: seq<nat>): seq<(JobKind, JobStatus)>
    requires forall k | 0 <= k < |js| :: js[k] < |jobs|
  {
    seq(|js|, k requires 0 <= k < |js| => (jobs[js[k]].kind, jobs[js[k]].status))
  }

  lemma OtherSeen(before: seq<Job>, job: Job, doc: Id, js: seq<nat>)
    requires (forall k | 0 <= k < |js| :: js[k] < |before|) && job.doc != Some(doc) && JobsOf(before, doc) == Seen(before, js)
    ensures JobsOf(before + [job], doc) == Seen(before + [job], js)
  {
    JobAdded(before, job, doc);
    assert Seen(before + [job], js) == Seen(before, js);
  }

  lemma OwnSeen(before: seq<Job>, job: Job, doc: Id, js: seq<nat>)
    requires (forall k | 0 <= k < |js| :: js[k] < |before|) && job.doc == Some(doc) && JobsOf(before, doc) == Seen(before, js)
    ensures JobsOf(before + [job], doc) == Seen(before + [job], js + [|before|])
  {
    JobAdded(before, job, doc);
    assert Seen(before + [job], js + [|before|]) == Seen(before, js) + [(job.kind, job.status)];
  }

  lemma NotListed(jobs: seq<Job>, job: Job, doc: Id, js: seq<nat>)
    requires Lists(jobs + [job], doc, js) && job.doc != Some(doc)
    ensures Lists(jobs, doc, js)
  {
    var more := jobs + [job];
    forall k | 0 <= k < |js|
      ensures js[k] < |jobs| && jobs[js[k]] == more[js[k]]
    {
      assert more[js[k]].doc == Some(doc);
    }
    assert forall j | 0 <= j < |jobs| :: more[j] == jobs[j];
  }

  lemma LastIsHighest(jobs: seq<Job>, doc: Id, js: seq<nat>, k: nat)
    requires Lists(jobs, doc, js) && k < |js|
    ensures js[k] <= js[|js| - 1] < |jobs|
  {
  }

  lemma LastListed(before: seq<Job>, job: Job, doc: Id, js: seq<nat>) returns (earlier: seq<nat>)
    requires Lists(before + [job], doc, js) && job.doc == Some(doc)
    ensures js == earlier + [|before|] && Lists(before, doc, earlier)
  {
    var jobs := before + [job];
    assert jobs[|before|] == job && |before| in js;
    var k :| 0 <= k < |js| && js[k] == |before|;
    LastIsHighest(jobs, doc, js, k);
    earlier := js[..|js| - 1];
    forall j | 0 <= j < |before| && before[j].doc == Some(doc)
      ensures j in earlier
    {
      assert jobs[j].doc == Some(doc) && j in js;
    }
  }

  lemma {:induction false} JobsListed(jobs: seq<Job>, doc: Id, js: seq<nat>)
    requires Lists(jobs, doc, js)
    ensures JobsOf(jobs, doc) == Seen(jobs, js)
    decreases |jobs|
  {
    if jobs != [] {
      var before, job := jobs[..|jobs| - 1], jobs[|jobs| - 1];
      assert jobs == before + [job];
      if job.doc == Some(doc) {
        var earlier := LastListed(before, job, doc, js);
        JobsListed(before, doc, earlier);
        OwnSeen(before, job, doc, earlier);
      } else {
        NotListed(before, job, doc, js);
        JobsListed(before, doc, js);
        OtherSeen(before, job, doc, js);
      }
    } else if js != [] {
      LastIsHighest(jobs, doc, js, 0);
    }
  }

  /** Ready exactly when its three jobs completed, and then its rows are the pieces in order,
      each with the provider's vector for it; pieces of a fixed size, without their overlaps,
      are the text. Otherwise failed, and so is the last of its jobs; without pieces there are
      no rows. */
  ghost predicate Concluded(db: Db, y: Story, s: Services, ids: seq<Id>) {
    var strategy := s.strategies(y.topic);
    && JobsOf(db.jobs, y.doc) == Stages(y, s)
    && y.doc in db.docs && db.docs[y.doc].status == (if Answered(y, s) then Ready else FailedDoc)
    && (Answered(y, s) ==> Stored(db, y, s, ids, |ids|))
    && (PiecesFor(y, s).Err? ==> NoRows(db, y.doc))
    && (Answered(y, s) && !IsSemantic(strategy) ==>
        Reassemble(PiecesFor(y, s).value, EffectiveOverlap(ChunkSizeOf(strategy), ChunkOverlapOf(strategy))) == TextOf(y, s).value)
  }

  predicate Quiet(w: Scene, doc: Id) {
    NothingQueued(w.db, doc) && forall j | 0 <= j < |w.db.jobs| && w.db.jobs[j].doc == Some(doc) :: j !in w.running
  }

  lemma QuietJobs(w: Scene, y: Story, s: Services, js: seq<nat>, ids: seq<Id>)
    requires Ongoing(w, y, s, js, ids) && Quiet(w, y.doc)
    ensures JobsOf(w.db.jobs, y.doc) == Stages(y, s)
  {
    JobsListed(w.db.jobs, y.doc, js);
    assert forall k | 0 <= k < |js| :: Where(w, js[k]) == Closed(w.db.jobs[js[k]].status);
  }

  lemma QuietIsConcluded(w: Scene, y: Story, s: Services, js: seq<nat>, ids: seq<Id>)
    requires Ongoing(w, y, s, js, ids) && Quiet(w, y.doc)
    ensures Concluded(w.db, y, s, ids)
  {
    QuietJobs(w, y, s, js, ids);
    var last, strategy := js[|js| - 1], s.strategies(y.topic);
    assert Where(w, last) == Closed(w.db.jobs[last].status);
    if Answered(y, s) && !IsSemantic(strategy) {
      SplitLosesNothing(TextOf(y, s).value, ChunkSizeOf(strategy), ChunkOverlapOf(strategy));
    }
  }

  /** The upload, whatever jobs of other documents are in flight. */
  function Uploaded(w: Scene, y: Story): Scene {
    w.(db := Upload(w.db, y.doc, y.topic, y.raw, y.contentType))
  }

  /** No row and no job of the document is there yet, and the jobs in flight are of others. */
  predicate Untouched(w: Scene, doc: Id) {
    Fresh(w.db, doc) && forall j | j in w.running :: j < |w.db.jobs| && Foreign(w.db, w.running[j], doc)
  }

  lemma UploadIsOngoing(w: Scene, y: Story, s: Services)
    requires Untouched(w, y.doc)
    ensures Ongoing(Uploaded(w, y), y, s, [|w.db.jobs|], [])
  {
    var up, js := Uploaded(w, y), [|w.db.jobs|];
    forall j | 0 <= j < |up.db.jobs| && up.db.jobs[j].doc == Some(y.doc)
      ensures j in js
    {
      if j < |w.db.jobs| {
        NoJobs(w.db.jobs, y.doc, j);
      }
    }
    assert Where(up, js[0]) == Waits;
  }

  /** However the statements of the document's jobs, of the jobs of other documents and of
      everybody else interleave: once none of its jobs is queued or in flight any more, the
      document is concluded. */
  lemma ReadyIffAllComplete(w: Scene, y: Story, run: seq<Moment>, s: Services) returns (ids: seq<Id>)
    requires Untouched(w, y.doc) && Legal(Uploaded(w, y), y.doc, run, s)
    requires Quiet(Exec(Uploaded(w, y), y.doc, run, s), y.doc)
    ensures Concluded(Exec(Uploaded(w, y), y.doc, run, s).db, y, s, ids)
  {
    UploadIsOngoing(w, y, s);
    var js: seq<nat>;
    js, ids := AlwaysOngoing(Uploaded(w, y), y, run, s, [|w.db.jobs|], []);
    QuietIsConcluded(Exec(Uploaded(w, y), y.doc, run, s), y, s, js, ids);
  }
}

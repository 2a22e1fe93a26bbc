/** The three pipeline jobs statement by statement. A job in flight is a `Task`: the point it
    has reached and what it has read so far. */
module Tasks {
  import opened Tables
  import opened Splitting
  import opened Embeddings
  import opened Pipeline
  import opened Workers

  datatype Task =
    | Starting(doc: Id)
    | Reading(doc: Id)
    | Saving(doc: Id, text: Text)
    | Spawning(doc: Id, kind: JobKind)
    | Dividing(doc: Id)
    | Inserting(doc: Id, pieces: seq<Text>, i: nat)
    | Looking(doc: Id)
    | Asking(doc: Id, ids: seq<Id>, texts: seq<Text>, metas: seq<Meta>)
    | Storing(doc: Id, ids: seq<Id>, entries: seq<Entry>)
    | Tagging(doc: Id, ids: seq<Id>, i: nat)
    | Concluding(doc: Id, status: DocStatus, outcome: JobOutcome)
    | Ended(doc: Id, outcome: JobOutcome)

  predicate IsPipeline(kind: JobKind) {
    kind == Extraction || kind == Chunking || kind == Embedding
  }

  function TaskOf(kind: JobKind, doc: Id): Task
    requires IsPipeline(kind)
  {
    if kind == Extraction then Starting(doc) else if kind == Chunking then Dividing(doc) else Looking(doc)
  }

  function Metas(db: Db, ids: seq<Id>): (metas: seq<Meta>)
    requires forall c | c in ids :: c in db.chunks
    ensures |metas| == |ids| && forall i | 0 <= i < |ids| :: metas[i] == db.chunks[ids[i]].meta
  {
    seq(|ids|, i requires 0 <= i < |ids| => db.chunks[ids[i]].meta)
  }

  /** The items of the batch, from the metadata as it was read. */
  function Items(vs: seq<Vector>, metas: seq<Meta>, model: string): (es: seq<Entry>)
    requires |vs| == |metas|
    ensures |es| == |vs| && forall i | 0 <= i < |es| :: es[i] == Entry(vs[i], WithModel(metas[i], model))
  {
    seq(|vs|, i requires 0 <= i < |vs| => Entry(vs[i], WithModel(metas[i], model)))
  }

  function Answer(t: Task, s: Services): Task
    requires t.Asking?
  {
    match s.provider(t.texts)
    case Err(e) => Concluding(t.doc, FailedDoc, FailedWith(e))
    case Ok(vs) =>
      if |vs| != |t.ids| || |t.metas| != |t.ids| then Concluding(t.doc, FailedDoc, FailedWith(ProviderFailed))
      else Storing(t.doc, t.ids, Items(vs, t.metas, s.model))
  }

  function Extract(db: Db, doc: Id, s: Services): Task {
    if doc !in db.docs || db.docs[doc].content.None? then Concluding(doc, FailedDoc, FailedWith(NotFound))
    else
      var content := db.docs[doc].content.value;
      match ExtractText(content.raw, content.contentType, s.ex)
      case Err(e) => Concluding(doc, FailedDoc, FailedWith(e))
      case Ok(text) => Saving(doc, text)
  }

  function Divide(db: Db, doc: Id, s: Services): Task {
    if doc !in db.docs || db.docs[doc].content.None? then Concluding(doc, FailedDoc, FailedWith(NotFound))
    else
      var text := db.docs[doc].content.value.extracted;
      if text == [] then Concluding(doc, FailedDoc, FailedWith(Invalid))
      else
        match PiecesOf(text, StrategyFor(db, doc, s), s.splitter)
        case Err(e) => Concluding(doc, FailedDoc, FailedWith(e))
        case Ok(pieces) => Inserting(doc, pieces, 0)
  }

  function Look(db: Db, doc: Id): Task {
    var todo := Todo(db, doc);
    if todo == [] then Concluding(doc, Ready, Succeeded) else Asking(doc, todo, Texts(db, todo), Metas(db, todo))
  }

  /** The next statement of a job. */
  function Advance(db: Db, t: Task, s: Services): (Db, Task) {
    match t
    case Starting(d) =>
      var started := SetDocStatus(db, d, Processing);
      if started.Ok? then (started.value, Reading(d)) else (db, Ended(d, FailedWith(started.error)))
    case Reading(d) => (db, Extract(db, d, s))
    case Saving(d, text) =>
      var saved := SaveExtracted(db, d, text);
      if saved.Ok? then (saved.value, Spawning(d, Chunking)) else (db, Concluding(d, FailedDoc, FailedWith(saved.error)))
    case Spawning(d, kind) => (InsertJob(db, Some(d), kind), Ended(d, Succeeded))
    case Dividing(d) => (db, Divide(db, d, s))
    case Inserting(d, pieces, i) =>
      if i < |pieces| then (InsertChunk(db, d, pieces[i], i + 1, map[]), Inserting(d, pieces, i + 1)) else (db, Spawning(d, Embedding))
    case Looking(d) => (db, Look(db, d))
    case Asking(_, _, _, _) => (db, Answer(t, s))
    case Storing(d, ids, entries) =>
      (if |ids| == |entries| then db.(vectors := db.vectors + Batch(ids, entries)) else db, Tagging(d, ids, 0))
    case Tagging(d, ids, i) =>
      if i < |ids| then (SetEmbeddingId(db, ids[i], ids[i]), Tagging(d, ids, i + 1)) else (db, Concluding(d, Ready, Succeeded))
    case Concluding(d, status, outcome) => var ended := Conclude(db, d, status, outcome); (ended.0, Ended(d, ended.1))
    case Ended(_, _) => (db, t)
  }

  /** Statements left at most, counted by kind and then within the two loops. */
  function Stage(t: Task): nat {
    match t
    case Starting(_) => 10
    case Reading(_) => 9
    case Saving(_, _) => 8
    case Dividing(_) => 7
    case Inserting(_, _, _) => 6
    case Looking(_) => 5
    case Asking(_, _, _, _) => 4
    case Storing(_, _, _) => 3
    case Tagging(_, _, _) => 2
    case Concluding(_, _, _) => 1
    case Spawning(_, _) => 1
    case Ended(_, _) => 0
  }

  function Left(t: Task): nat {
    if t.Inserting? && t.i <= |t.pieces| then |t.pieces| - t.i
    else if t.Tagging? && t.i <= |t.ids| then |t.ids| - t.i else 0
  }

  predicate IsLess(t': Task, t: Task) {
    Stage(t') < Stage(t) || (Stage(t') == Stage(t) && Left(t') < Left(t))
  }

  lemma ExtractGoesDown(db: Db, doc: Id, s: Services)
    ensures Extract(db, doc, s).Concluding? || Extract(db, doc, s).Saving?
  {
  }

  lemma DivideGoesDown(db: Db, doc: Id, s: Services)
    ensures Divide(db, doc, s).Concluding? || Divide(db, doc, s).Inserting?
  {
  }

  lemma ReadingGoesDown(db: Db, t: Task, s: Services)
    requires t.Reading? || t.Dividing?
    ensures IsLess(Advance(db, t, s).1, t)
  {
    if t.Reading? {
      ExtractGoesDown(db, t.doc, s);
    } else {
      DivideGoesDown(db, t.doc, s);
    }
  }

  lemma LookGoesDown(db: Db, doc: Id)
    ensures IsLess(Look(db, doc), Looking(doc))
  {
  }

  lemma LookingGoesDown(db: Db, t: Task, s: Services)
    requires t.Looking?
    ensures IsLess(Advance(db, t, s).1, t)
  {
    LookGoesDown(db, t.doc);
    assert t == Looking(t.doc);
  }

  lemma AskingGoesDown(db: Db, t: Task, s: Services)
    requires t.Asking?
    ensures IsLess(Advance(db, t, s).1, t)
  {
    assert Answer(t, s).Concluding? || Answer(t, s).Storing?;
  }

  lemma WritingGoesDown(db: Db, t: Task, s: Services)
    requires !t.Ended? && !t.Reading? && !t.Dividing? && !t.Looking? && !t.Asking?
    ensures IsLess(Advance(db, t, s).1, t)
  {
  }

  lemma GoesDown(db: Db, t: Task, s: Services)
    requires !t.Ended?
    ensures IsLess(Advance(db, t, s).1, t)
  {
    if t.Reading? || t.Dividing? {
      ReadingGoesDown(db, t, s);
    } else if t.Looking? {
      LookingGoesDown(db, t, s);
    } else if t.Asking? {
      AskingGoesDown(db, t, s);
    } else {
      WritingGoesDown(db, t, s);
    }
  }

  /** The job run to its end with nobody in between. */
  function Finish(db: Db, t: Task, s: Services): (Db, JobOutcome)
    decreases Stage(t), Left(t)
  {
    if t.Ended? then (db, t.outcome)
    else
      GoesDown(db, t, s);
      var (db', t') := Advance(db, t, s); Finish(db', t', s)
  }

  // ----- undisturbed, the statements are the job ------------------------------------------------

  lemma FinishConcluding(db: Db, doc: Id, status: DocStatus, outcome: JobOutcome, s: Services)
    ensures Finish(db, Concluding(doc, status, outcome), s) == Conclude(db, doc, status, outcome)
  {
    var ended := Conclude(db, doc, status, outcome);
    assert Finish(db, Concluding(doc, status, outcome), s) == Finish(ended.0, Ended(doc, ended.1), s);
  }

  lemma FinishSpawning(db: Db, doc: Id, kind: JobKind, s: Services)
    ensures Finish(db, Spawning(doc, kind), s) == (InsertJob(db, Some(doc), kind), Succeeded)
  {
    assert Finish(db, Spawning(doc, kind), s) == Finish(InsertJob(db, Some(doc), kind), Ended(doc, Succeeded), s);
  }

  lemma FinishSaving(db: Db, doc: Id, text: Text, s: Services)
    ensures Finish(db, Saving(doc, text), s) ==
            var saved := SaveExtracted(db, doc, text);
            if saved.Ok? then (InsertJob(saved.value, Some(doc), Chunking), Succeeded)
            else Conclude(db, doc, FailedDoc, FailedWith(saved.error))
  {
    var saved := SaveExtracted(db, doc, text);
    if saved.Ok? {
      assert Finish(db, Saving(doc, text), s) == Finish(saved.value, Spawning(doc, Chunking), s);
      FinishSpawning(saved.value, doc, Chunking, s);
    } else {
      assert Finish(db, Saving(doc, text), s) == Finish(db, Concluding(doc, FailedDoc, FailedWith(saved.error)), s);
      FinishConcluding(db, doc, FailedDoc, FailedWith(saved.error), s);
    }
  }

  lemma UndisturbedExtraction(db: Db, doc: Id, s: Services)
    ensures Finish(db, Starting(doc), s) == ExtractionJob(db, doc, s.ex)
  {
    var started := SetDocStatus(db, doc, Processing);
    if started.Ok? {
      var next := Extract(started.value, doc, s);
      assert Finish(db, Starting(doc), s) == Finish(started.value, Reading(doc), s);
      assert Finish(started.value, Reading(doc), s) == Finish(started.value, next, s);
      if next.Saving? {
        FinishSaving(started.value, doc, next.text, s);
      } else {
        FinishConcluding(started.value, doc, FailedDoc, next.outcome, s);
      }
    } else {
      assert Finish(db, Starting(doc), s) == Finish(db, Ended(doc, FailedWith(started.error)), s);
    }
  }

  /** The loop from piece `i` on. */
  lemma {:induction false} FinishInserting(db: Db, doc: Id, pieces: seq<Text>, i: nat, s: Services)
    requires i <= |pieces|
    ensures Finish(InsertPieces(db, doc, pieces[..i]), Inserting(doc, pieces, i), s)
         == (InsertJob(InsertPieces(db, doc, pieces), Some(doc), Embedding), Succeeded)
    decreases |pieces| - i
  {
    var now := InsertPieces(db, doc, pieces[..i]);
    if i < |pieces| {
      assert pieces[..i + 1][..i] == pieces[..i];
      var next := InsertChunk(now, doc, pieces[i], i + 1, map[]);
      assert next == InsertPieces(db, doc, pieces[..i + 1]);
      assert Finish(now, Inserting(doc, pieces, i), s) == Finish(next, Inserting(doc, pieces, i + 1), s);
      FinishInserting(db, doc, pieces, i + 1, s);
    } else {
      assert pieces[..i] == pieces;
      assert Finish(now, Inserting(doc, pieces, i), s) == Finish(now, Spawning(doc, Embedding), s);
      FinishSpawning(now, doc, Embedding, s);
    }
  }

  lemma UndisturbedChunking(db: Db, doc: Id, s: Services)
    ensures Finish(db, Dividing(doc), s) == ChunkingJob(db, doc, StrategyFor(db, doc, s), s.splitter)
  {
    var next := Divide(db, doc, s);
    assert Finish(db, Dividing(doc), s) == Finish(db, next, s);
    if next.Inserting? {
      assert next.pieces[..0] == [];
      FinishInserting(db, doc, next.pieces, 0, s);
    } else {
      FinishConcluding(db, doc, FailedDoc, next.outcome, s);
    }
  }

  lemma TagOneMore(db: Db, ids: seq<Id>, i: nat)
    requires i < |ids|
    ensures SetEmbeddingId(db.(chunks := Tagged(db.chunks, Elements(ids[..i]))), ids[i], ids[i])
         == db.(chunks := Tagged(db.chunks, Elements(ids[..i + 1])))
  {
    assert ids[..i + 1] == ids[..i] + [ids[i]];
    assert forall c: Id :: c in Elements(ids[..i + 1]) <==> c in Elements(ids[..i]) || c == ids[i];
  }

  /** The loop from id `i` on. */
  lemma {:induction false} FinishTagging(db: Db, doc: Id, ids: seq<Id>, i: nat, s: Services)
    requires i <= |ids|
    ensures Finish(db.(chunks := Tagged(db.chunks, Elements(ids[..i]))), Tagging(doc, ids, i), s)
         == Conclude(db.(chunks := Tagged(db.chunks, Elements(ids))), doc, Ready, Succeeded)
    decreases |ids| - i
  {
    var now := db.(chunks := Tagged(db.chunks, Elements(ids[..i])));
    if i < |ids| {
      var next := SetEmbeddingId(now, ids[i], ids[i]);
      TagOneMore(db, ids, i);
      assert Finish(now, Tagging(doc, ids, i), s) == Finish(next, Tagging(doc, ids, i + 1), s);
      FinishTagging(db, doc, ids, i + 1, s);
    } else {
      assert ids[..i] == ids;
      assert Finish(now, Tagging(doc, ids, i), s) == Finish(now, Concluding(doc, Ready, Succeeded), s);
      FinishConcluding(now, doc, Ready, Succeeded, s);
    }
  }

  lemma FinishStoring(db: Db, doc: Id, ids: seq<Id>, entries: seq<Entry>, s: Services)
    requires |ids| == |entries|
    ensures Finish(db, Storing(doc, ids, entries), s) ==
            Conclude(db.(vectors := db.vectors + Batch(ids, entries), chunks := Tagged(db.chunks, Elements(ids))), doc, Ready, Succeeded)
  {
    var stored := db.(vectors := db.vectors + Batch(ids, entries));
    assert Finish(db, Storing(doc, ids, entries), s) == Finish(stored, Tagging(doc, ids, 0), s);
    assert Tagged(stored.chunks, Elements(ids[..0])) == stored.chunks;
    FinishTagging(stored, doc, ids, 0, s);
  }

  lemma FinishAsking(db: Db, doc: Id, ids: seq<Id>, s: Services)
    requires forall c | c in ids :: c in db.chunks
    ensures Finish(db, Asking(doc, ids, Texts(db, ids), Metas(db, ids)), s)
         == EmbedAnswer(db, doc, ids, s.provider(Texts(db, ids)), s.model)
  {
    var asking := Asking(doc, ids, Texts(db, ids), Metas(db, ids));
    var next := Answer(asking, s);
    assert Finish(db, asking, s) == Finish(db, next, s);
    if next.Storing? {
      var vs := s.provider(Texts(db, ids)).value;
      assert next.entries == Entries(db, ids, vs, s.model);
      FinishStoring(db, doc, ids, next.entries, s);
    } else {
      FinishConcluding(db, doc, FailedDoc, next.outcome, s);
    }
  }

  lemma UndisturbedEmbedding(db: Db, doc: Id, s: Services)
    ensures Finish(db, Looking(doc), s) == EmbedDocument(db, doc, s.provider, s.model)
  {
    var next := Look(db, doc);
    assert Finish(db, Looking(doc), s) == Finish(db, next, s);
    if next.Asking? {
      FinishAsking(db, doc, next.ids, s);
    } else {
      FinishConcluding(db, doc, Ready, Succeeded, s);
    }
  }

  /** With nobody in between, the statements of a pipeline job are the job. */
  lemma UndisturbedIsWork(db: Db, kind: JobKind, doc: Id, carried: Payload, s: Services)
    requires IsPipeline(kind)
    ensures Finish(db, TaskOf(kind, doc), s) == DocWork(db, kind, doc, carried, s)
  {
    if kind == Extraction {
      UndisturbedExtraction(db, doc, s);
    } else if kind == Chunking {
      UndisturbedChunking(db, doc, s);
    } else {
      UndisturbedEmbedding(db, doc, s);
    }
  }
}

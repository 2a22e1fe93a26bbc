/** The remaining writers of the chunk table and the vector backend: the compaction
    worker, the embedding worker, and the chunk service. */
module Handlers {
  import opened Tables
  import opened Calls
  import opened Interleaving
  import opened Effects
  import opened Embeddings
  import opened Serial
  import opened Store

  // ----- the compaction worker -------------------------------------------------------

  function FilterActive(db: Db, ids: seq<Id>): (r: seq<Id>)
    ensures forall c :: c in r <==> c in ids && IsActive(db, c)
  {
    if ids == [] then []
    else
      var n := |ids| - 1;
      assert ids == ids[..n] + [ids[n]];
      FilterActive(db, ids[..n]) + if IsActive(db, ids[n]) then [ids[n]] else []
  }

  /** The source chunks of a compaction job: the listed ids that are active, in the
      order listed, or else every active chunk of the document. */
  function Selected(db: Db, doc: Id, requested: seq<Id>): seq<Id> {
    if requested != [] then FilterActive(db, requested) else ListByDocument(db, doc)
  }

  /** The worker's sources exist before its summary does, as the forest argument needs. */
  lemma SelectedAreBelow(db: Db, doc: Id, requested: seq<Id>)
    requires Grounded(db)
    ensures forall c | c in Selected(db, doc, requested) :: IsActive(db, c) && c < db.next
  {
  }

  type Summariser = seq<Text> -> Result<Text>

  lemma SelectedExist(db: Db, doc: Id, requested: seq<Id>)
    ensures forall c | c in Selected(db, doc, requested) :: c in db.chunks
  {
  }

  /** The whole job. A provider that fails leaves the summary chunk behind, unembedded. */
  function CompactionJob(db: Db, doc: Id, requested: seq<Id>, llm: Summariser, provider: Provider, model: string, who: string)
    : (Db, Outcome)
  {
    var sources := Selected(db, doc, requested);
    SelectedExist(db, doc, requested);
    if |sources| < 2 then (db, Nothing)
    else
      match llm(Texts(db, sources))
      case Err(e) => (db, Refused(e))
      case Ok(summary) =>
        if summary == [] then (db, Refused(ProviderFailed))
        else
          match provider([summary])
          case Err(e) =>
            (InsertChunk(db, doc, summary, NextSequence(db, doc), map["compaction_source_count" := Num(|sources|)]), Refused(e))
          case Ok(vs) => Finish(db, WorkerCall(doc, sources, summary, vs, model, who))
  }

  class CompactionWorker {
    const db: Database
    const model: string

    constructor (db: Database, model: string)
      ensures this.db == db && this.model == model
    {
      this.db := db;
      this.model := model;
    }

    method Select(doc: Id, requested: seq<Id>) returns (sources: seq<Id>)
      ensures sources == Selected(db.State(), doc, requested)
    {
      if requested == [] {
        return ListByDocument(db.State(), doc);
      }
      sources := [];
      for i := 0 to |requested|
        invariant sources == FilterActive(db.State(), requested[..i])
      {
        assert requested[..i + 1][..i] == requested[..i];
        if requested[i] in db.chunks && db.chunks[requested[i]].status.Active? {
          sources := sources + [requested[i]];
        }
      }
      assert requested[..|requested|] == requested;
    }

    method Process(doc: Id, requested: seq<Id>, llm: Summariser, provider: Provider, who: string) returns (outcome: Outcome)
      modifies db
      ensures (db.State(), outcome) == CompactionJob(old(db.State()), doc, requested, llm, provider, model, who)
    {
      var sources := Select(doc, requested);
      SelectedExist(db.State(), doc, requested);
      if |sources| < 2 {
        return Nothing;
      }
      var reply := llm(Texts(db.State(), sources));
      if reply.Err? {
        return Refused(reply.error);
      }
      var summary := reply.value;
      if summary == [] {
        return Refused(ProviderFailed);
      }
      var counted: Meta := map["compaction_source_count" := Num(|sources|)];
      var answer := provider([summary]);
      if answer.Err? {
        var sequence := NextSequence(db.State(), doc);
        var _ := db.CreateChunk(doc, summary, sequence, counted);
        return Refused(answer.error);
      }
      var stored := if model == "" then counted else counted["embedding_model" := Str(model)];
      var entry := if answer.value == [] then None else Some(Entry(answer.value[0], stored));
      outcome := db.RunCompaction(Plan(doc, sources, summary, counted, entry, false, who));
    }
  }

  // ----- the chunk service ---------------------------------------------------------------

  class ChunkServer {
    const db: Database
    /** Whether the server was given a job store. */
    const hasQueue: bool

    constructor (db: Database, hasQueue: bool)
      ensures this.db == db && this.hasQueue == hasQueue
    {
      this.db := db;
      this.hasQueue := hasQueue;
    }

    /** IngestChunks past its permission check. */
    method IngestChunks(doc: Id, inputs: seq<Input>)
      modifies db
      ensures var stored := IngestAll(old(db.State()), doc, inputs);
              db.State() == if hasQueue && exists x :: x in inputs && x.embedding == [] then InsertJob(stored, Some(doc), Embedding) else stored
    {
      var needsEmbedding := false;
      for i := 0 to |inputs|
        invariant db.State() == IngestAll(old(db.State()), doc, inputs[..i])
        invariant needsEmbedding <==> exists x :: x in inputs[..i] && x.embedding == []
      {
        var x := inputs[i];
        assert inputs[..i + 1][..i] == inputs[..i] && inputs[..i + 1] == inputs[..i] + [x];
        var c := db.CreateChunk(doc, x.content, x.sequence, x.meta);
        if x.embedding != [] {
          db.StoreEntry(c, Entry(x.embedding, x.meta));
          db.SetEmbeddingID(c, c);
        } else {
          needsEmbedding := true;
        }
      }
      assert inputs[..|inputs|] == inputs;
      if needsEmbedding && hasQueue {
        db.CreateJob(Some(doc), Embedding);
      }
    }

    /** DeleteChunk past its permission check. */
    method DeleteChunk(id: Id) returns (r: Result<()>)
      modifies db
      ensures (db.State(), r) == Serial.DeleteChunk(old(db.State()), id)
    {
      if id !in db.chunks {
        return Err(NotFound);
      }
      db.DeleteEntries({id});
      r := db.DeleteRow(id);
    }
  }

  // ----- the embedding worker -----------------------------------------------------------

  class EmbeddingWorker {
    const db: Database
    const model: string

    constructor (db: Database, model: string)
      ensures this.db == db && this.model == model
    {
      this.db := db;
      this.model := model;
    }

    method Filter(chunks: seq<Id>) returns (needsEmbedding: seq<Id>)
      requires forall c | c in chunks :: c in db.chunks
      ensures needsEmbedding == Unembedded(db.State(), chunks)
    {
      needsEmbedding := [];
      for i := 0 to |chunks|
        invariant Unembedded(db.State(), chunks) == needsEmbedding + Unembedded(db.State(), chunks[i..])
      {
        assert chunks[i..][1..] == chunks[i + 1..];
        if db.chunks[chunks[i]].embeddingId.None? {
          needsEmbedding := needsEmbedding + [chunks[i]];
        }
      }
    }

    method StoreBatch(ids: seq<Id>, vs: seq<Vector>)
      requires |vs| == |ids| && forall c | c in ids :: c in db.chunks
      modifies db
      ensures db.State() == old(db.State()).(vectors := old(db.vectors) + Batch(ids, Entries(old(db.State()), ids, vs, model)))
    {
      ghost var entries := Entries(db.State(), ids, vs, model);
      assert db.vectors == db.vectors + Batch(ids[..0], entries[..0]);
      for i := 0 to |ids|
        invariant db.State() == old(db.State()).(vectors := old(db.vectors) + Batch(ids[..i], entries[..i]))
      {
        BatchGrows(ids, entries, i, old(db.vectors));
        var meta := if model == "" then db.chunks[ids[i]].meta else db.chunks[ids[i]].meta["embedding_model" := Str(model)];
        db.StoreEntry(ids[i], Entry(vs[i], meta));
      }
      assert ids[..|ids|] == ids && entries[..|ids|] == entries;
    }

    method Tag(ids: seq<Id>)
      modifies db
      ensures db.State() == old(db.State()).(chunks := Tagged(old(db.chunks), Elements(ids)))
    {
      for i := 0 to |ids|
        invariant db.State() == old(db.State()).(chunks := Tagged(old(db.chunks), Elements(ids[..i])))
      {
        assert ids[..i + 1] == ids[..i] + [ids[i]];
        db.SetEmbeddingID(ids[i], ids[i]);
        assert db.chunks == Tagged(old(db.chunks), Elements(ids[..i + 1]));
      }
      assert ids[..|ids|] == ids;
    }

    method Process(doc: Id, provider: Provider) returns (outcome: JobOutcome)
      modifies db
      ensures (db.State(), outcome) == EmbedDocument(old(db.State()), doc, provider, model)
    {
      var chunks := ListByDocument(db.State(), doc);
      var needsEmbedding := Filter(chunks);
      if needsEmbedding == [] {
        outcome := db.Conclude(doc, Ready, Succeeded);
        return;
      }
      var answer := provider(Texts(db.State(), needsEmbedding));
      if answer.Err? {
        outcome := db.Conclude(doc, FailedDoc, FailedWith(answer.error));
        return;
      }
      if |answer.value| != |needsEmbedding| {
        outcome := db.Conclude(doc, FailedDoc, FailedWith(ProviderFailed));
        return;
      }
      StoreBatch(needsEmbedding, answer.value);
      Tag(needsEmbedding);
      outcome := db.Conclude(doc, Ready, Succeeded);
    }
  }
}

/** Runs of whole requests, one after the other: the chunk table and the vector backend
    keep agreeing, and parents keep climbing in sequence. */
module Serial {
  import opened Tables
  import opened Calls
  import opened Interleaving
  import opened Effects
  import opened Embeddings

  datatype Input = Input(content: Text, sequence: int, embedding: Vector, meta: Meta)

  /** One turn of the IngestChunks loop: the row, and its vector if one was given. */
  function IngestOne(db: Db, doc: Id, x: Input): Db {
    var inserted := InsertChunk(db, doc, x.content, x.sequence, x.meta);
    if x.embedding == [] then inserted
    else SetEmbeddingId(StoreVector(inserted, db.next, Entry(x.embedding, x.meta)), db.next, db.next)
  }

  function IngestAll(db: Db, doc: Id, xs: seq<Input>): Db {
    if xs == [] then db else IngestOne(IngestAll(db, doc, xs[..|xs| - 1]), doc, xs[|xs| - 1])
  }

  /** DeleteChunk: the vector goes first, then the row unless another chunk points at it. */
  function DeleteChunk(db: Db, id: Id): (Db, Result<()>) {
    if id !in db.chunks then (db, Err(NotFound))
    else
      var unstored := DeleteVectors(db, {id});
      match DeleteChunkRow(unstored, id)
      case Ok(db') => (db', Ok(()))
      case Err(e) => (unstored, Err(e))
  }

  datatype Request =
    | Ingest(doc: Id, inputs: seq<Input>)
    | Delete(id: Id)
    | Compact(plan: Plan)
    | Uncompact(summary: Id, allowed: bool)
    | Embed(doc: Id, provider: Provider, model: string)

  /** `Compact` stands for the request and for the worker: they differ in the plan only. */
  function Serve(db: Db, r: Request): Db {
    match r
    case Ingest(doc, xs) => IngestAll(db, doc, xs)
    case Delete(id) => DeleteChunk(db, id).0
    case Compact(p) => Finish(db, Numbering(p)).0
    case Uncompact(s, allowed) => Finish(db, UncompactCall(s, allowed)).0
    case Embed(doc, provider, model) => EmbedDocument(db, doc, provider, model).0
  }

  // ----- the index agrees with the table --------------------------------------------

  /** A chunk has an embedding id, its own, exactly when the backend holds its vector;
      a compacted chunk has neither; the backend holds nothing else. */
  predicate Agreement(db: Db) {
    && (forall c | c in db.chunks ::
          && (db.chunks[c].embeddingId.None? || db.chunks[c].embeddingId == Some(c))
          && (db.chunks[c].embeddingId.Some? <==> c in db.vectors)
          && (db.chunks[c].status.Compacted? ==> db.chunks[c].embeddingId.None?))
    && (forall v | v in db.vectors :: v in db.chunks)
  }

  predicate RecordsLive(db: Db) {
    forall r | r in db.records :: r < db.next && db.records[r].summary in db.chunks
  }

  predicate Sound(db: Db) {
    Grounded(db) && Agreement(db) && RecordsLive(db)
  }

  /** The source ids of a compaction were handed out already; a deleted chunk stands for
      no other, or was not embedded. Nothing else is asked of a request. */
  predicate Admissible(db: Db, r: Request) {
    match r
    case Compact(p) => SourcesBelow(p, db.next)
    case Delete(id) => id in db.chunks && db.chunks[id].embeddingId.Some? ==> Children(db, id) == {}
    case _ => true
  }

  lemma {:induction false} IngestKeepsSound(db: Db, doc: Id, xs: seq<Input>)
    requires Sound(db)
    ensures Sound(IngestAll(db, doc, xs)) && db.next <= IngestAll(db, doc, xs).next
  {
    if xs != [] {
      IngestKeepsSound(db, doc, xs[..|xs| - 1]);
    }
  }

  lemma CompactKeepsAgreement(db: Db, p: Plan)
    requires Sound(db) && SourcesBelow(p, db.next)
    ensures Agreement(Prepared(db, p).(chunks := ChunksAfter(db, p)))
  {
    var hit := ActiveAmong(db, p.sources);
    forall c | c in db.chunks && c in p.sources && c !in hit
      ensures db.chunks[c].embeddingId.None?
    {
      assert !IsActive(db, c);
    }
    var chunks, vectors := ChunksAfter(db, p), VectorsAfter(db, p);
    forall c | c in chunks
      ensures chunks[c].embeddingId.None? || chunks[c].embeddingId == Some(c)
      ensures chunks[c].embeddingId.Some? <==> c in vectors
      ensures chunks[c].status.Compacted? ==> chunks[c].embeddingId.None?
    {
      if c != db.next {
        assert chunks[c] == if c in hit then CompactedInto(db.chunks[c], db.next) else db.chunks[c];
      }
    }
  }

  lemma CompactKeepsGrounded(db: Db, p: Plan)
    requires Grounded(db) && SourcesBelow(p, db.next)
    ensures forall next | next > db.next :: Grounded(db.(chunks := ChunksAfter(db, p), next := next))
  {
  }

  /** With no active source, marking changes no row, and the vectors dropped were none. */
  lemma NoActiveNoChange(db: Db, p: Plan)
    requires db.next !in db.chunks && Agreement(db) && ActiveAmong(db, p.sources) == {}
    ensures ChunksAfter(db, p) == Prepared(db, p).chunks
    ensures db.vectors - Elements(p.sources) == db.vectors
  {
    forall v | v in db.vectors
      ensures v !in p.sources
    {
      assert db.chunks[v].status.Active? && v !in ActiveAmong(db, p.sources);
    }
  }

  lemma CompactKeepsSound(db: Db, p: Plan)
    requires Sound(db) && SourcesBelow(p, db.next)
    ensures Sound(CompactedDb(db, p).0)
  {
    CompactKeepsAgreement(db, p);
    CompactKeepsGrounded(db, p);
    var after := CompactedDb(db, p).0;
    if ActiveAmong(db, p.sources) == {} {
      NoActiveNoChange(db, p);
    }
    assert after.chunks == ChunksAfter(db, p) && after.next > db.next;
    assert Grounded(db.(chunks := ChunksAfter(db, p), next := after.next));
  }

  lemma UncompactedChunks(db: Db, s: Id, doc: Id, c: Id)
    requires c in UncompactedDb(db, s, doc).chunks
    ensures c in db.chunks && c != s && UncompactedDb(db, s, doc).chunks[c] == Revived(db.chunks[c], s)
  {
  }

  lemma UncompactedIsGrounded(db: Db, s: Id, doc: Id)
    requires Grounded(db)
    ensures Grounded(UncompactedDb(db, s, doc))
  {
  }

  lemma UncompactedAgrees(db: Db, s: Id, doc: Id)
    requires Agreement(db)
    ensures Agreement(UncompactedDb(db, s, doc))
  {
    forall c | c in UncompactedDb(db, s, doc).chunks
      ensures UncompactedDb(db, s, doc).chunks[c] == Revived(db.chunks[c], s)
    {
      UncompactedChunks(db, s, doc, c);
    }
  }

  lemma UncompactedIsSound(db: Db, s: Id, doc: Id)
    requires Sound(db)
    ensures Sound(UncompactedDb(db, s, doc))
  {
    UncompactedIsGrounded(db, s, doc);
    UncompactedAgrees(db, s, doc);
  }

  lemma UncompactKeepsSound(db: Db, s: Id, allowed: bool)
    requires Sound(db)
    ensures Sound(Finish(db, UncompactCall(s, allowed)).0)
  {
    var found := RecordFor(db, s);
    if found.Some? {
      FinishUncompaction(db, s, allowed);
      UncompactedIsSound(db, s, db.records[found.value].doc);
    } else {
      FinishLooking(db, s, allowed);
    }
  }

  lemma EmbeddedIsSound(db: Db, doc: Id, ids: seq<Id>, vs: seq<Vector>, model: string)
    requires Sound(db) && |vs| == |ids| && forall c | c in ids :: c in db.chunks && c in ActiveIn(db, doc)
    ensures Sound(Embedded(db, ids, vs, model))
  {
    var after := Embedded(db, ids, vs, model);
    assert Grounded(after);
    assert Agreement(after);
  }

  lemma EmbedAnswerKeepsSound(db: Db, doc: Id, todo: seq<Id>, answer: Result<seq<Vector>>, model: string)
    requires Sound(db) && forall c | c in todo :: c in db.chunks && c in ActiveIn(db, doc)
    ensures Sound(EmbedAnswer(db, doc, todo, answer, model).0)
  {
    if answer.Ok? && |answer.value| == |todo| {
      EmbeddedIsSound(db, doc, todo, answer.value, model);
    }
  }

  lemma EmbedKeepsSound(db: Db, doc: Id, provider: Provider, model: string)
    requires Sound(db)
    ensures Sound(EmbedDocument(db, doc, provider, model).0)
  {
    var todo := Todo(db, doc);
    if todo != [] {
      EmbedAnswerKeepsSound(db, doc, todo, provider(Texts(db, todo)), model);
    }
  }

  /** DeleteChunk keeps the index in agreement exactly when the chunk has no vector or
      stands for no other chunk: of an embedded summary it drops the vector and is then
      refused the row. */
  lemma DeleteKeepsAgreementIff(db: Db, id: Id)
    requires Sound(db) && id in db.chunks
    ensures Agreement(DeleteChunk(db, id).0) <==> (db.chunks[id].embeddingId.None? || Children(db, id) == {})
  {
    var unstored := DeleteVectors(db, {id});
    assert Children(unstored, id) == Children(db, id);
    assert id !in Children(db, id);
    if Children(db, id) != {} {
      assert DeleteChunk(db, id).0 == unstored;
    }
  }

  /** The statements an embedding job issues for a chunk it listed earlier carry no guard:
      issued late, they keep index and table in agreement exactly when the chunk is still
      active. This is why the claim below is about serial runs. The backend is any that stores
      what it is given. */
  lemma LateEmbeddingKeepsAgreementIff(db: Db, c: Id, entry: Entry)
    requires Sound(db)
    ensures Agreement(SetEmbeddingId(StoreVector(db, c, entry), c, c)) <==> IsActive(db, c)
  {
    var after := SetEmbeddingId(StoreVector(db, c, entry), c, c);
    assert c in after.vectors;
    if c in db.chunks {
      assert after.chunks[c].embeddingId == Some(c) && after.chunks[c].status == db.chunks[c].status;
    }
  }

  /** The same statements when the vectors are in pgvector, whose table references the
      chunks: the store is refused for a chunk that is gone, and nothing is tagged. */
  function LateOnPgvector(db: Db, c: Id, entry: Entry): Db {
    if c in db.chunks then SetEmbeddingId(StoreVector(db, c, entry), c, c) else db
  }

  /** There a deleted chunk does no harm: they keep the agreement exactly when the chunk is
      active or gone. */
  lemma LateOnPgvectorIff(db: Db, c: Id, entry: Entry)
    requires Sound(db)
    ensures Agreement(LateOnPgvector(db, c, entry)) <==> (c in db.chunks ==> IsActive(db, c))
  {
    if c in db.chunks {
      LateEmbeddingKeepsAgreementIff(db, c, entry);
    }
  }

  lemma DeleteKeepsSound(db: Db, id: Id)
    requires Sound(db) && Admissible(db, Request.Delete(id))
    ensures Sound(DeleteChunk(db, id).0)
  {
    if id in db.chunks {
      DeleteKeepsAgreementIff(db, id);
      DeleteKeepsGrounded(DeleteVectors(db, {id}), id);
    }
  }

  lemma ServeKeepsSound(db: Db, r: Request)
    requires Sound(db) && Admissible(db, r)
    ensures Sound(Serve(db, r))
  {
    match r
    case Ingest(doc, xs) => IngestKeepsSound(db, doc, xs);
    case Delete(id) => DeleteKeepsSound(db, id);
    case Compact(p) => FinishCompaction(db, p); CompactKeepsSound(db, p);
    case Uncompact(s, allowed) => UncompactKeepsSound(db, s, allowed);
    case Embed(doc, provider, model) => EmbedKeepsSound(db, doc, provider, model);
  }

  predicate AllAdmissible(db: Db, rs: seq<Request>)
    decreases |rs|
  {
    rs == [] || (Admissible(db, rs[0]) && AllAdmissible(Serve(db, rs[0]), rs[1..]))
  }

  function ServeAll(db: Db, rs: seq<Request>): Db
    decreases |rs|
  {
    if rs == [] then db else ServeAll(Serve(db, rs[0]), rs[1..])
  }

  lemma {:induction false} IndexAlwaysAgrees(db: Db, rs: seq<Request>)
    requires Sound(db) && AllAdmissible(db, rs)
    ensures Sound(ServeAll(db, rs))
    decreases |rs|
  {
    if rs != [] {
      ServeKeepsSound(db, rs[0]);
      IndexAlwaysAgrees(Serve(db, rs[0]), rs[1..]);
    }
  }
}

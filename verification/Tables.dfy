/** The Postgres tables of creel and the vector backend, as one value, and each
    SQL statement the compaction, ingestion and embedding code issues as one
    function from the tables to the tables.

    Ids are handed out in creation order, so `id < id'` says that the row `id` was
    created before the row `id'`, and `next` is the id of the next row. */
module Tables {
  import opened Ordering

  datatype Option<+T> = None | Some(value: T)

  type Id = nat
  newtype Byte = x: int | 0 <= x < 256
  type Text = seq<Byte>
  type Vector = seq<real>

  datatype Value = Str(s: string) | Num(n: int)
  type Meta = map<string, Value>

  datatype ChunkStatus = Active | Compacted
  datatype Chunk = Chunk(doc: Id, sequence: int, content: Text, embeddingId: Option<Id>,
                         status: ChunkStatus, compactedBy: Option<Id>, meta: Meta)
  datatype Link = Link(source: Id, target: Id, kind: string, createdBy: string, meta: Meta)
  datatype Record = Record(summary: Id, sources: seq<Id>, doc: Id, createdBy: string)

  /** What the vector backend keeps under a chunk id. */
  datatype Entry = Entry(embedding: Vector, meta: Meta)

  datatype JobKind = Extraction | Chunking | Embedding | Compaction | MemoryMessages | MemoryMaintenance
  datatype JobStatus = Queued | Running | Completed | Failed
  datatype Job = Job(doc: Option<Id>, kind: JobKind, status: JobStatus, created: int)

  datatype DocStatus = Pending | Processing | Ready | FailedDoc
  datatype Content = Content(raw: Text, contentType: string, extracted: Text)
  datatype Doc = Doc(topic: Id, status: DocStatus, content: Option<Content>)

  /** `jobs` is indexed by job id; `now` is the clock that stamps new jobs. */
  datatype Db = Db(docs: map<Id, Doc>, chunks: map<Id, Chunk>, links: map<Id, Link>, records: map<Id, Record>,
                   vectors: map<Id, Entry>, jobs: seq<Job>, next: Id, now: int)

  datatype Error = NotFound | Denied | Invalid | NoActiveChunks | RecordGone | ForeignKey | ProviderFailed
  datatype Result<+T> = Ok(value: T) | Err(error: Error)

  // ----- chunks ---------------------------------------------------------------

  function InsertChunk(db: Db, doc: Id, content: Text, sequence: int, meta: Meta): Db {
    db.(chunks := db.chunks[db.next := Chunk(doc, sequence, content, None, Active, None, meta)], next := db.next + 1)
  }

  function SetEmbeddingId(db: Db, id: Id, embedding: Id): Db {
    if id in db.chunks then db.(chunks := db.chunks[id := db.chunks[id].(embeddingId := Some(embedding))]) else db
  }

  function IsActive(db: Db, id: Id): bool {
    id in db.chunks && db.chunks[id].status.Active?
  }

  /** The listed chunks that are active: the only rows marking touches. */
  function ActiveAmong(db: Db, ids: seq<Id>): set<Id> {
    set id | id in ids && IsActive(db, id)
  }

  function CompactedInto(chunk: Chunk, summary: Id): Chunk {
    chunk.(status := Compacted, compactedBy := Some(summary), embeddingId := None)
  }

  function MarkCompacted(db: Db, ids: seq<Id>, summary: Id): Result<Db> {
    var hit := ActiveAmong(db, ids);
    if hit == {} then Err(NoActiveChunks)
    else if summary !in db.chunks then Err(ForeignKey)
    else Ok(db.(chunks := map c | c in db.chunks ::
                  if c in hit then CompactedInto(db.chunks[c], summary) else db.chunks[c]))
  }

  /** The chunks a summary stands for. */
  function Children(db: Db, summary: Id): set<Id> {
    set c | c in db.chunks && db.chunks[c].compactedBy == Some(summary)
  }

  function RestoreCompacted(db: Db, summary: Id): Db {
    db.(chunks := map c | c in db.chunks ::
          if db.chunks[c].compactedBy == Some(summary)
          then db.chunks[c].(status := Active, compactedBy := None) else db.chunks[c])
  }

  /** `compacted_by` has no delete action, so the row of a chunk that others point at
      cannot go; the links and the records of a deleted chunk go with it. */
  function DeleteChunkRow(db: Db, id: Id): Result<Db> {
    if id !in db.chunks then Err(NotFound)
    else if Children(db, id) != {} && Children(db, id) != {id} then Err(ForeignKey)
    else Ok(db.(chunks := db.chunks - {id},
                links := map l | l in db.links && db.links[l].source != id && db.links[l].target != id :: db.links[l],
                records := map r | r in db.records && db.records[r].summary != id :: db.records[r]))
  }

  function ChunksOf(db: Db, doc: Id): set<Id> {
    set c | c in db.chunks && db.chunks[c].doc == doc
  }

  /** One more than the highest sequence of the document, compacted chunks included. */
  function NextSequence(db: Db, doc: Id): (n: int)
    ensures forall c | c in db.chunks && db.chunks[c].doc == doc :: db.chunks[c].sequence < n
    ensures ChunksOf(db, doc) == {} ==> n == 1
    ensures ChunksOf(db, doc) != {} ==> exists c :: c in ChunksOf(db, doc) && n == db.chunks[c].sequence + 1
  {
    var rows := ChunksOf(db, doc);
    var key: map<nat, int> := map c | c in rows :: -db.chunks[c].sequence;
    assert forall c | c in db.chunks && db.chunks[c].doc == doc :: c in rows;
    if rows == {} then 1 else
      var top := Least(rows, key);
      assert forall c | c in rows :: Before(key, top, c);
      db.chunks[top].sequence + 1
  }

  // ----- links ----------------------------------------------------------------

  /** Both endpoints reference chunks, so a row can only be moved onto a live one. */
  function MoveSources(db: Db, from: Id, to: Id): Result<Db> {
    if to !in db.chunks && exists l :: l in db.links && db.links[l].source == from then Err(ForeignKey)
    else Ok(db.(links := map l | l in db.links ::
                  if db.links[l].source == from then db.links[l].(source := to) else db.links[l]))
  }

  function MoveTargets(db: Db, from: Id, to: Id): Result<Db> {
    if to !in db.chunks && exists l :: l in db.links && db.links[l].target == from then Err(ForeignKey)
    else Ok(db.(links := map l | l in db.links ::
                  if db.links[l].target == from then db.links[l].(target := to) else db.links[l]))
  }

  // ----- compaction records ---------------------------------------------------

  function InsertRecord(db: Db, record: Record): Result<Db> {
    if record.summary !in db.chunks then Err(ForeignKey)
    else Ok(db.(records := db.records[db.next := record], next := db.next + 1))
  }

  function RecordsOf(db: Db, summary: Id): set<Id> {
    set r | r in db.records && db.records[r].summary == summary
  }

  /** The row GetBySummaryChunkID reads: the oldest, should there be several. */
  function RecordFor(db: Db, summary: Id): (r: Option<Id>)
    ensures r.Some? ==> r.value in RecordsOf(db, summary)
    ensures r.None? ==> RecordsOf(db, summary) == {}
  {
    var rows := RecordsOf(db, summary);
    if rows == {} then None else Some(Least(rows, map r | r in rows :: r))
  }

  function DeleteRecord(db: Db, record: Id): Result<Db> {
    if record !in db.records then Err(RecordGone) else Ok(db.(records := db.records - {record}))
  }

  // ----- the vector backend and the job table ------------------------------------

  function StoreVector(db: Db, id: Id, entry: Entry): Db {
    db.(vectors := db.vectors[id := entry])
  }

  function DeleteVectors(db: Db, ids: set<Id>): Db {
    db.(vectors := db.vectors - ids)
  }

  function InsertJob(db: Db, doc: Option<Id>, kind: JobKind): Db {
    db.(jobs := db.jobs + [Job(doc, kind, Queued, db.now)])
  }

  function Elements(ids: seq<Id>): set<Id> {
    set id | id in ids
  }
}

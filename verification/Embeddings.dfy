/** EmbeddingWorker.Process as a function: list the active chunks of the document that
    have no embedding, ask the provider once, store the answers under the chunk ids. */
module Embeddings {
  import opened Ordering
  import opened Tables

  /** The embedding provider: one vector per text, or an error; the count is not to be trusted. */
  type Provider = seq<Text> -> Result<seq<Vector>>

  datatype JobOutcome = Succeeded | FailedWith(error: Error)

  function ActiveIn(db: Db, doc: Id): set<Id> {
    set c | c in db.chunks && db.chunks[c].doc == doc && db.chunks[c].status.Active?
  }

  function SequenceKey(db: Db): map<nat, int> {
    map c | c in db.chunks :: db.chunks[c].sequence
  }

  /** The active chunks of a document in sequence order. */
  function ListByDocument(db: Db, doc: Id): (ids: seq<Id>)
    ensures |ids| == |ActiveIn(db, doc)| && forall c :: c in ids <==> c in ActiveIn(db, doc)
    ensures forall c | c in ids :: c in db.chunks
    ensures forall i, j | 0 <= i < j < |ids| :: ids[i] != ids[j] && ids[i] in db.chunks && ids[j] in db.chunks &&
               db.chunks[ids[i]].sequence <= db.chunks[ids[j]].sequence
  {
    var ids := SortedBy(ActiveIn(db, doc), SequenceKey(db));
    assert forall i, j | 0 <= i < j < |ids| :: Before(SequenceKey(db), ids[i], ids[j]);
    ids
  }

  function Unembedded(db: Db, ids: seq<Id>): (todo: seq<Id>)
    requires forall c | c in ids :: c in db.chunks
    ensures forall c :: c in todo <==> c in ids && db.chunks[c].embeddingId.None?
    ensures (forall i, j | 0 <= i < j < |ids| :: ids[i] != ids[j]) ==> forall i, j | 0 <= i < j < |todo| :: todo[i] != todo[j]
  {
    if ids == [] then []
    else
      var rest := Unembedded(db, ids[1..]);
      assert forall c :: c in ids <==> c == ids[0] || c in ids[1..];
      assert (forall i, j | 0 <= i < j < |ids| :: ids[i] != ids[j]) ==> ids[0] !in ids[1..];
      if db.chunks[ids[0]].embeddingId.None? then [ids[0]] + rest else rest
  }

  function Todo(db: Db, doc: Id): seq<Id> {
    Unembedded(db, ListByDocument(db, doc))
  }

  function Texts(db: Db, ids: seq<Id>): (texts: seq<Text>)
    requires forall c | c in ids :: c in db.chunks
    ensures |texts| == |ids| && forall i | 0 <= i < |ids| :: texts[i] == db.chunks[ids[i]].content
  {
    seq(|ids|, i requires 0 <= i < |ids| => db.chunks[ids[i]].content)
  }

  function WithModel(meta: Meta, model: string): Meta {
    if model == "" then meta else meta["embedding_model" := Str(model)]
  }

  /** The items of StoreBatch: the vector of each chunk and the chunk's own metadata. */
  function Entries(db: Db, ids: seq<Id>, vs: seq<Vector>, model: string): (es: seq<Entry>)
    requires |vs| == |ids| && forall c | c in ids :: c in db.chunks
    ensures |es| == |ids|
  {
    seq(|ids|, i requires 0 <= i < |ids| => Entry(vs[i], WithModel(db.chunks[ids[i]].meta, model)))
  }

  function Batch(ids: seq<Id>, entries: seq<Entry>): (m: map<Id, Entry>)
    requires |ids| == |entries|
    ensures m.Keys == Elements(ids)
  {
    if ids == [] then map[]
    else
      var n := |ids| - 1;
      assert ids == ids[..n] + [ids[n]];
      Batch(ids[..n], entries[..n])[ids[n] := entries[n]]
  }

  /** Each chunk gets the vector at its own position. */
  lemma {:induction false} BatchAt(ids: seq<Id>, entries: seq<Entry>, i: nat)
    requires |ids| == |entries| && i < |ids| && forall j, k | 0 <= j < k < |ids| :: ids[j] != ids[k]
    ensures Batch(ids, entries)[ids[i]] == entries[i]
  {
    if i < |ids| - 1 {
      BatchAt(ids[..|ids| - 1], entries[..|ids| - 1], i);
    }
  }

  lemma BatchGrows(ids: seq<Id>, entries: seq<Entry>, i: nat, base: map<Id, Entry>)
    requires |ids| == |entries| && i < |ids|
    ensures base + Batch(ids[..i + 1], entries[..i + 1]) == (base + Batch(ids[..i], entries[..i]))[ids[i] := entries[i]]
  {
    assert ids[..i + 1][..i] == ids[..i] && entries[..i + 1][..i] == entries[..i];
  }

  function Tagged(chunks: map<Id, Chunk>, ids: set<Id>): map<Id, Chunk> {
    map c | c in chunks :: if c in ids then chunks[c].(embeddingId := Some(c)) else chunks[c]
  }

  /** StoreBatch and the SetEmbeddingID loop for the chunks `ids` and their vectors. */
  function Embedded(db: Db, ids: seq<Id>, vs: seq<Vector>, model: string): Db
    requires |vs| == |ids| && forall c | c in ids :: c in db.chunks
  {
    db.(vectors := db.vectors + Batch(ids, Entries(db, ids, vs, model)), chunks := Tagged(db.chunks, Elements(ids)))
  }

  function SetDocStatus(db: Db, doc: Id, status: DocStatus): Result<Db> {
    if doc in db.docs then Ok(db.(docs := db.docs[doc := db.docs[doc].(status := status)])) else Err(NotFound)
  }

  /** The document is set to `status`, and the job ends with `outcome` unless that fails. */
  function Conclude(db: Db, doc: Id, status: DocStatus, outcome: JobOutcome): (Db, JobOutcome) {
    match SetDocStatus(db, doc, status)
    case Ok(db') => (db', outcome)
    case Err(e) => (db, FailedWith(e))
  }

  /** The end of the job once the provider has answered for the chunks `todo`. */
  function EmbedAnswer(db: Db, doc: Id, todo: seq<Id>, answer: Result<seq<Vector>>, model: string): (r: (Db, JobOutcome))
    requires forall c | c in todo :: c in db.chunks
    ensures r.0.chunks == db.chunks || r.0.chunks == Tagged(db.chunks, Elements(todo))
    ensures r.0.jobs == db.jobs
  {
    match answer
    case Err(e) => Conclude(db, doc, FailedDoc, FailedWith(e))
    case Ok(vs) =>
      if |vs| != |todo| then Conclude(db, doc, FailedDoc, FailedWith(ProviderFailed))
      else Conclude(Embedded(db, todo, vs, model), doc, Ready, Succeeded)
  }

  /** EmbeddingWorker.Process. */
  function EmbedDocument(db: Db, doc: Id, provider: Provider, model: string): (r: (Db, JobOutcome))
    ensures r.0.jobs == db.jobs
  {
    var todo := Todo(db, doc);
    if todo == [] then Conclude(db, doc, Ready, Succeeded)
    else EmbedAnswer(db, doc, todo, provider(Texts(db, todo)), model)
  }
}

/** An upload from the bytes that came in to the rows that can be searched, by media type,
    however the statements of all jobs interleave. */
module Uploads {
  import opened Tables
  import opened Splitting
  import opened Embeddings
  import opened Pipeline
  import opened Workers
  import opened EndToEnd
  import opened Meanwhile

  /** The rows of the document are `ids`, in order of creation, active and numbered from 1. */
  predicate AreItsRows(db: Db, doc: Id, ids: seq<Id>) {
    && (forall c | c in db.chunks && db.chunks[c].doc == doc :: c in ids)
    && (forall i, j | 0 <= i < j < |ids| :: ids[i] < ids[j])
    && (forall i | 0 <= i < |ids| :: ids[i] in db.chunks &&
          db.chunks[ids[i]] == Chunk(doc, i + 1, db.chunks[ids[i]].content, Some(ids[i]), Active, None, map[]))
  }

  /** Every row has the vector the provider gave for its content. */
  predicate HaveTheirVectors(db: Db, ids: seq<Id>, vs: seq<Vector>, model: string) {
    && |vs| == |ids|
    && forall i | 0 <= i < |ids| :: ids[i] in db.vectors &&
         db.vectors[ids[i]] == Entry(vs[i], if model == "" then map[] else map["embedding_model" := Str(model)])
  }

  /** The document ended as one whose text is `text`: ready exactly when the text is not empty,
      can be split, and gets one vector per piece. Ready, its rows hold the pieces, and pieces
      of a fixed size, without their overlaps, are the text. */
  ghost predicate EndsAs(db: Db, y: Story, s: Services, text: Text, ids: seq<Id>) {
    var strategy := s.strategies(y.topic);
    var pieces := PiecesOf(text, strategy, s.splitter);
    var good := text != [] && pieces.Ok? && s.provider(pieces.value).Ok? && |s.provider(pieces.value).value| == |pieces.value|;
    && y.doc in db.docs && db.docs[y.doc].status == (if good then Ready else FailedDoc)
    && JobsOf(db.jobs, y.doc) == (if text == [] || pieces.Err? then [(Extraction, Completed), (Chunking, Failed)]
                                  else [(Extraction, Completed), (Chunking, Completed), (Embedding, if good then Completed else Failed)])
    && (good ==>
        && AreItsRows(db, y.doc, ids) && Texts(db, ids) == pieces.value
        && HaveTheirVectors(db, ids, s.provider(Texts(db, ids)).value, s.model)
        && (!IsSemantic(strategy) ==>
            Reassemble(Texts(db, ids), EffectiveOverlap(ChunkSizeOf(strategy), ChunkOverlapOf(strategy))) == text))
  }

  /** The document ended without a text: no later job than the first, and no rows. */
  predicate EndsUnread(db: Db, y: Story) {
    && y.doc in db.docs && db.docs[y.doc].status == FailedDoc
    && JobsOf(db.jobs, y.doc) == [(Extraction, Failed)] && forall c | c in db.chunks :: db.chunks[c].doc != y.doc
  }

  ghost predicate EndsWith(db: Db, y: Story, s: Services, read: Result<Text>, ids: seq<Id>) {
    if read.Ok? then EndsAs(db, y, s, read.value, ids) else EndsUnread(db, y)
  }

  lemma StoredRows(db: Db, y: Story, s: Services, ids: seq<Id>)
    requires Stored(db, y, s, ids, |ids|)
    ensures AreItsRows(db, y.doc, ids) && Texts(db, ids) == PiecesFor(y, s).value
    ensures HaveTheirVectors(db, ids, s.provider(PiecesFor(y, s).value).value, s.model)
  {
    var pieces := PiecesFor(y, s).value;
    forall i | 0 <= i < |ids|
      ensures ids[i] in db.chunks && db.chunks[ids[i]] == PieceRow(y.doc, i, pieces[i], Some(ids[i]))
    {
    }
    forall i | 0 <= i < |ids|
      ensures HasEntry(db.vectors, ids[i], Entry(s.provider(pieces).value[i], WithModel(map[], s.model)))
    {
    }
    assert WithModel(map[], s.model) == if s.model == "" then map[] else map["embedding_model" := Str(s.model)];
  }

  lemma ConcludedEnds(db: Db, y: Story, s: Services, ids: seq<Id>)
    requires Concluded(db, y, s, ids)
    ensures EndsWith(db, y, s, TextOf(y, s), ids)
  {
    if Answered(y, s) {
      StoredRows(db, y, s, ids);
    }
  }

  /** A run after the upload at whose end none of the document's jobs is queued or in flight. */
  predicate Ends(w: Scene, y: Story, run: seq<Moment>, s: Services) {
    Untouched(w, y.doc) && Meanwhile.Legal(Uploaded(w, y), y.doc, run, s) && Quiet(Meanwhile.Exec(Uploaded(w, y), y.doc, run, s), y.doc)
  }

  function Final(w: Scene, y: Story, run: seq<Moment>, s: Services): Db
    requires Ends(w, y, run, s)
  {
    Meanwhile.Exec(Uploaded(w, y), y.doc, run, s).db
  }

  lemma UploadEnds(w: Scene, y: Story, run: seq<Moment>, s: Services) returns (ids: seq<Id>)
    requires Ends(w, y, run, s)
    ensures EndsWith(Final(w, y, run, s), y, s, TextOf(y, s), ids)
  {
    ids := Meanwhile.ReadyIffAllComplete(w, y, run, s);
    ConcludedEnds(Final(w, y, run, s), y, s, ids);
  }

  /** Plain text ends as the very bytes that were uploaded. */
  lemma PlainUploads(w: Scene, y: Story, run: seq<Moment>, s: Services) returns (ids: seq<Id>)
    requires Ends(w, y, run, s) && s.ex.mediaType(y.contentType, y.raw) == "text/plain"
    ensures EndsAs(Final(w, y, run, s), y, s, y.raw, ids)
  {
    ids := UploadEnds(w, y, run, s);
  }

  /** So when the topic is not semantic, the contents of the rows of a ready document, put
      together without their overlaps, are what was uploaded; and anything but nothing is
      ready exactly when the provider answers one vector per piece. */
  lemma PlainTextComesBack(w: Scene, y: Story, run: seq<Moment>, s: Services) returns (ids: seq<Id>)
    requires Ends(w, y, run, s) && s.ex.mediaType(y.contentType, y.raw) == "text/plain"
    requires s.strategies(y.topic).None? || !s.strategies(y.topic).value.semantic
    ensures var db, strategy := Final(w, y, run, s), s.strategies(y.topic);
            var size, overlap := ChunkSizeOf(strategy), ChunkOverlapOf(strategy);
            var pieces := Split(y.raw, size, overlap);
            && y.doc in db.docs
            && (y.raw != [] ==> (db.docs[y.doc].status == Ready <==> Fits(s.provider(pieces), pieces)))
            && (db.docs[y.doc].status == Ready ==>
                AreItsRows(db, y.doc, ids) && Reassemble(Texts(db, ids), EffectiveOverlap(size, overlap)) == y.raw)
  {
    ids := PlainUploads(w, y, run, s);
  }

  /** HTML and PDF end as what their reader makes of them, or unread when it fails. */
  lemma ReadUploads(w: Scene, y: Story, run: seq<Moment>, s: Services) returns (ids: seq<Id>)
    requires Ends(w, y, run, s)
    ensures var db, ct := Final(w, y, run, s), s.ex.mediaType(y.contentType, y.raw);
            && (ct == "text/html" || ct == "application/xhtml+xml" ==> EndsWith(db, y, s, s.ex.html(y.raw), ids))
            && (ct == "application/pdf" ==> EndsWith(db, y, s, s.ex.pdf(y.raw), ids))
  {
    ids := UploadEnds(w, y, run, s);
  }

  /** Any other media type ends unread. */
  lemma OtherUploads(w: Scene, y: Story, run: seq<Moment>, s: Services)
    requires Ends(w, y, run, s)
    requires s.ex.mediaType(y.contentType, y.raw) !in {"text/plain", "text/html", "application/xhtml+xml", "application/pdf"}
    ensures EndsUnread(Final(w, y, run, s), y)
  {
    var ids := UploadEnds(w, y, run, s);
  }
}

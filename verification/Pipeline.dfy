/** An uploaded document through extraction, fixed-size chunking and embedding. */
module Pipeline {
  import opened Ordering
  import opened Tables
  import opened Splitting
  import opened Embeddings

  /** The foreign parts of text extraction: media type normalisation and sniffing, and
      the HTML and PDF readers. */
  datatype Extractors = Extractors(mediaType: (string, Text) -> string, html: Text -> Result<Text>, pdf: Text -> Result<Text>)

  datatype Strategy = Strategy(semantic: bool, chunkSize: int, chunkOverlap: int)

  /** The language model that splits a text by sense, with the reading and trimming of its
      answer. */
  type Splitter = Text -> Result<seq<Text>>

  function ExtractText(raw: Text, contentType: string, ex: Extractors): Result<Text> {
    var ct := ex.mediaType(contentType, raw);
    if ct == "text/plain" then Ok(raw)
    else if ct == "text/html" || ct == "application/xhtml+xml" then ex.html(raw)
    else if ct == "application/pdf" then ex.pdf(raw)
    else Err(Invalid)
  }

  function SaveExtracted(db: Db, doc: Id, text: Text): Result<Db> {
    if doc in db.docs && db.docs[doc].content.Some?
    then Ok(db.(docs := db.docs[doc := db.docs[doc].(content := Some(db.docs[doc].content.value.(extracted := text)))]))
    else Err(NotFound)
  }

  /** UploadDocument: the pending document, its content and the first job. */
  function Upload(db: Db, doc: Id, topic: Id, raw: Text, contentType: string): Db {
    InsertJob(db.(docs := db.docs[doc := Doc(topic, Pending, Some(Content(raw, contentType, [])))]), Some(doc), Extraction)
  }

  /** ExtractionWorker.Process. */
  function ExtractionJob(db: Db, doc: Id, ex: Extractors): (Db, JobOutcome) {
    match SetDocStatus(db, doc, Processing)
    case Err(e) => (db, FailedWith(e))
    case Ok(started) =>
      match started.docs[doc].content
      case None => Conclude(started, doc, FailedDoc, FailedWith(NotFound))
      case Some(content) =>
        match ExtractText(content.raw, content.contentType, ex)
        case Err(e) => Conclude(started, doc, FailedDoc, FailedWith(e))
        case Ok(text) =>
          match SaveExtracted(started, doc, text)
          case Err(e) => Conclude(started, doc, FailedDoc, FailedWith(e))
          case Ok(saved) => (InsertJob(saved, Some(doc), Chunking), Succeeded)
  }

  /** Only a positive setting of the topic replaces a default. */
  function ChunkSizeOf(strategy: Option<Strategy>): int {
    if strategy.Some? && strategy.value.chunkSize > 0 then strategy.value.chunkSize else DEFAULT_CHUNK_SIZE
  }

  function ChunkOverlapOf(strategy: Option<Strategy>): int {
    if strategy.Some? && strategy.value.chunkOverlap > 0 then strategy.value.chunkOverlap else DEFAULT_CHUNK_OVERLAP
  }

  function NonEmpty(chunks: seq<Text>): (r: seq<Text>)
    ensures forall c :: c in r <==> c in chunks && c != []
  {
    if chunks == [] then []
    else
      var n := |chunks| - 1;
      assert chunks == chunks[..n] + [chunks[n]];
      NonEmpty(chunks[..n]) + if chunks[n] == [] then [] else [chunks[n]]
  }

  /** splitSemantic: an answer without a chunk is an error. */
  function SplitSemantic(text: Text, splitter: Splitter): Result<seq<Text>> {
    match splitter(text)
    case Err(e) => Err(e)
    case Ok(chunks) => if NonEmpty(chunks) == [] then Err(ProviderFailed) else Ok(NonEmpty(chunks))
  }

  /** What is kept of the model's chunks are those that are not empty, where they stand. */
  lemma {:induction false} NonEmptyAt(chunks: seq<Text>) returns (at: seq<nat>)
    ensures PickedAt(chunks, NonEmpty(chunks), at)
    ensures forall i: nat | i < |chunks| :: i in at <==> chunks[i] != []
  {
    if chunks == [] {
      at := [];
    } else {
      var n := |chunks| - 1;
      var before := NonEmptyAt(chunks[..n]);
      PickOne(chunks[..n], NonEmpty(chunks[..n]), before, chunks[n]);
      assert chunks == chunks[..n] + [chunks[n]];
      at := before + if chunks[n] == [] then [] else [n];
      assert forall i :: i in at <==> i in before || (i == n && chunks[n] != []);
    }
  }

  /** Splitting by sense fails without a model, when the model fails, and when it returns
      nothing but empty chunks; otherwise the pieces are its chunks that are not empty. */
  lemma SensibleSplits(text: Text, strategy: Strategy, splitter: Option<Splitter>) returns (at: seq<nat>)
    requires strategy.semantic
    ensures var r := PiecesOf(text, Some(strategy), splitter);
            if splitter.None? then r == Err(ProviderFailed)
            else if splitter.value(text).Err? then r == Err(splitter.value(text).error)
            else if forall c | c in splitter.value(text).value :: c == [] then r == Err(ProviderFailed)
            else
              && r.Ok? && PickedAt(splitter.value(text).value, r.value, at)
              && forall i: nat | i < |splitter.value(text).value| :: i in at <==> splitter.value(text).value[i] != []
  {
    at := [];
    if splitter.Some? && splitter.value(text).Ok? {
      var chunks := splitter.value(text).value;
      at := NonEmptyAt(chunks);
      if NonEmpty(chunks) != [] {
        assert NonEmpty(chunks)[0] in NonEmpty(chunks);
      }
    }
  }

  predicate IsSemantic(strategy: Option<Strategy>) {
    strategy.Some? && strategy.value.semantic
  }

  function PiecesOf(text: Text, strategy: Option<Strategy>, splitter: Option<Splitter>): Result<seq<Text>> {
    if IsSemantic(strategy) then
      if splitter.None? then Err(ProviderFailed) else SplitSemantic(text, splitter.value)
    else Ok(Split(text, ChunkSizeOf(strategy), ChunkOverlapOf(strategy)))
  }

  /** What a topic configures is what the pieces have: a positive size is their size, a
      positive overlap what they share, and without them it is 2048 and 200. */
  lemma SettingsAreUsed(text: Text, strategy: Option<Strategy>, splitter: Option<Splitter>)
    requires !(strategy.Some? && strategy.value.semantic)
    ensures strategy.None? ==> PiecesOf(text, strategy, splitter) == Ok(Split(text, 2048, 200))
    ensures strategy.Some? ==>
      var size, overlap := strategy.value.chunkSize, strategy.value.chunkOverlap;
      PiecesOf(text, strategy, splitter) ==
      Ok(if size > 0 && overlap > 0 then Split(text, size, overlap)
         else if size > 0 then Split(text, size, 200)
         else if overlap > 0 then Split(text, 2048, overlap)
         else Split(text, 2048, 200))
  {
  }

  /** So with settings that fit each other, piece `i` is the window they describe. */
  lemma PiecesAreTheWindows(text: Text, strategy: Strategy, splitter: Option<Splitter>, i: nat)
    requires !strategy.semantic && 0 < strategy.chunkOverlap < strategy.chunkSize
    requires i < |Split(text, strategy.chunkSize, strategy.chunkOverlap)|
    ensures var pieces, start := PiecesOf(text, Some(strategy), splitter), i * (strategy.chunkSize - strategy.chunkOverlap);
            && pieces.Ok? && i < |pieces.value| && 0 <= start < |text|
            && pieces.value[i] == Window(text, start, strategy.chunkSize)
            && (i + 1 < |pieces.value| <==> start + strategy.chunkSize < |text|)
  {
    OrdinaryWindows(text, strategy.chunkSize, strategy.chunkOverlap, i);
  }

  lemma PiecesAreSome(text: Text, strategy: Option<Strategy>, splitter: Option<Splitter>)
    requires text != [] && PiecesOf(text, strategy, splitter).Ok?
    ensures PiecesOf(text, strategy, splitter).value != []
  {
  }

  /** The chunk rows, numbered from 1. */
  function InsertPieces(db: Db, doc: Id, pieces: seq<Text>): (after: Db)
    ensures after.next == db.next + |pieces|
  {
    if pieces == [] then db
    else
      var n := |pieces| - 1;
      InsertChunk(InsertPieces(db, doc, pieces[..n]), doc, pieces[n], n + 1, map[])
  }

  /** The end of the job once the text is split. */
  function StorePieces(db: Db, doc: Id, pieces: Result<seq<Text>>): (Db, JobOutcome) {
    if pieces.Err? then Conclude(db, doc, FailedDoc, FailedWith(pieces.error))
    else (InsertJob(InsertPieces(db, doc, pieces.value), Some(doc), Embedding), Succeeded)
  }

  /** ChunkingWorker.Process. */
  function ChunkingJob(db: Db, doc: Id, strategy: Option<Strategy>, splitter: Option<Splitter>): (Db, JobOutcome) {
    if doc !in db.docs || db.docs[doc].content.None? then Conclude(db, doc, FailedDoc, FailedWith(NotFound))
    else
      var text := db.docs[doc].content.value.extracted;
      if text == [] then Conclude(db, doc, FailedDoc, FailedWith(Invalid))
      else StorePieces(db, doc, PiecesOf(text, strategy, splitter))
  }

  // ----- what each job does to its document ------------------------------------------------

  lemma ExtractionOutcome(db: Db, doc: Id, ex: Extractors)
    requires doc in db.docs && db.docs[doc].content.Some?
    ensures var (after, outcome) := ExtractionJob(db, doc, ex);
            var content := db.docs[doc].content.value;
            var text := ExtractText(content.raw, content.contentType, ex);
            if text.Ok? then
              && outcome == Succeeded
              && after == db.(docs := db.docs[doc := db.docs[doc].(status := Processing, content := Some(content.(extracted := text.value)))],
                              jobs := db.jobs + [Job(Some(doc), Chunking, Queued, db.now)])
            else
              outcome == FailedWith(text.error) && after == db.(docs := db.docs[doc := db.docs[doc].(status := FailedDoc)])
  {
  }

  /** What the extraction job saves: of plain text the bytes as they came, of HTML and PDF
      what the reader makes of them; anything else fails, and so does a reader's error. */
  lemma ExtractionByType(db: Db, doc: Id, ex: Extractors)
    requires doc in db.docs && db.docs[doc].content.Some?
    ensures var content, (after, outcome) := db.docs[doc].content.value, ExtractionJob(db, doc, ex);
            var ct := ex.mediaType(content.contentType, content.raw);
            var read := if ct == "text/plain" then Ok(content.raw)
                        else if ct == "text/html" || ct == "application/xhtml+xml" then ex.html(content.raw)
                        else if ct == "application/pdf" then ex.pdf(content.raw) else Err(Invalid);
            if read.Ok? then
              && outcome == Succeeded && after.jobs == db.jobs + [Job(Some(doc), Chunking, Queued, db.now)]
              && doc in after.docs && after.docs[doc].status == Processing
              && after.docs[doc].content == Some(Content(content.raw, content.contentType, read.value))
            else outcome == FailedWith(read.error) && after.jobs == db.jobs && doc in after.docs && after.docs[doc].status == FailedDoc
  {
  }

  /** Row `i` of the pieces has the id `next + i` and the sequence `i + 1`. */
  lemma {:induction false} PiecesAreNumbered(db: Db, doc: Id, pieces: seq<Text>)
    requires forall c | c in db.chunks :: c < db.next
    ensures var after := InsertPieces(db, doc, pieces);
            && after == db.(chunks := after.chunks, next := after.next)
            && (forall c :: c in after.chunks <==> c in db.chunks || db.next <= c < db.next + |pieces|)
            && (forall c | c in db.chunks :: after.chunks[c] == db.chunks[c])
            && (forall i | 0 <= i < |pieces| :: after.chunks[db.next + i] == Chunk(doc, i + 1, pieces[i], None, Active, None, map[]))
  {
    if pieces != [] {
      PiecesAreNumbered(db, doc, pieces[..|pieces| - 1]);
    }
  }

  /** Strictly increasing numbers from 1 to their count are 1, 2, 3, ... */
  lemma {:induction false} Counting(ns: seq<int>, low: int, i: nat)
    requires i < |ns|
    requires forall j, k | 0 <= j < k < |ns| :: ns[j] < ns[k]
    requires forall j | 0 <= j < |ns| :: low < ns[j] <= low + |ns|
    ensures ns[i] == low + i + 1
  {
    if i > 0 {
      if ns[0] != low + 1 {
        Spread(ns);
      }
      Counting(ns[1..], low + 1, i - 1);
    } else {
      Spread(ns);
    }
  }

  lemma {:induction false} Spread(ns: seq<int>)
    requires ns != [] && forall j, k | 0 <= j < k < |ns| :: ns[j] < ns[k]
    ensures ns[|ns| - 1] >= ns[0] + |ns| - 1
  {
    if |ns| > 1 {
      Spread(ns[..|ns| - 1]);
    }
  }

  function Numbers(first: nat, n: nat): (ids: seq<nat>)
    ensures |ids| == n && forall i | 0 <= i < n :: ids[i] == first + i
  {
    seq(n, i requires 0 <= i < n => first + i)
  }

  function Range(first: nat, n: nat): (r: set<nat>)
    ensures |r| == n && forall i :: i in r <==> first <= i < first + n
  {
    if n == 0 then {} else Range(first, n - 1) + {first + n - 1}
  }

  lemma {:induction false} AllUnembedded(db: Db, ids: seq<Id>)
    requires forall c | c in ids :: c in db.chunks && db.chunks[c].embeddingId.None?
    ensures Unembedded(db, ids) == ids
  {
    if ids != [] {
      AllUnembedded(db, ids[1..]);
    }
  }

  /** The row of piece `i`. */
  function PieceRow(doc: Id, i: nat, piece: Text, embeddingId: Option<Id>): Chunk {
    Chunk(doc, i + 1, piece, embeddingId, Active, None, map[])
  }

  /** The chunks of the document are the rows first .. first + n, holding the pieces in order. */
  ghost predicate HoldsPieces(db: Db, doc: Id, first: Id, pieces: seq<Text>, embedded: bool) {
    && (forall c | c in db.chunks && db.chunks[c].doc == doc :: first <= c < first + |pieces|)
    && (forall c: Id | first <= c < first + |pieces| :: c in db.chunks &&
          db.chunks[c] == PieceRow(doc, c - first, pieces[c - first], if embedded then Some(c) else None))
  }

  lemma {:induction false} PieceAt(db: Db, doc: Id, pieces: seq<Text>, i: nat)
    requires i < |pieces|
    ensures db.next + i in InsertPieces(db, doc, pieces).chunks
    ensures InsertPieces(db, doc, pieces).chunks[db.next + i] == PieceRow(doc, i, pieces[i], None)
  {
    if i < |pieces| - 1 {
      PieceAt(db, doc, pieces[..|pieces| - 1], i);
    }
  }

  lemma RowOf(db: Db, doc: Id, pieces: seq<Text>, c: Id)
    requires db.next <= c < db.next + |pieces|
    ensures c in InsertPieces(db, doc, pieces).chunks
    ensures InsertPieces(db, doc, pieces).chunks[c] == PieceRow(doc, c - db.next, pieces[c - db.next], None)
  {
    PieceAt(db, doc, pieces, c - db.next);
  }

  /** Nothing but the pieces is added, and no row changes. */
  lemma {:induction false} OnlyPiecesAdded(db: Db, doc: Id, pieces: seq<Text>, c: Id)
    requires c in InsertPieces(db, doc, pieces).chunks && !(db.next <= c < db.next + |pieces|)
    ensures c in db.chunks && InsertPieces(db, doc, pieces).chunks[c] == db.chunks[c]
  {
    if pieces != [] {
      OnlyPiecesAdded(db, doc, pieces[..|pieces| - 1], c);
    }
  }

  lemma PiecesAreHeld(db: Db, doc: Id, pieces: seq<Text>)
    requires forall c | c in db.chunks :: c < db.next && db.chunks[c].doc != doc
    ensures HoldsPieces(InsertPieces(db, doc, pieces), doc, db.next, pieces, false)
  {
    var after := InsertPieces(db, doc, pieces);
    forall c: Id | db.next <= c < db.next + |pieces|
      ensures c in after.chunks && after.chunks[c] == PieceRow(doc, c - db.next, pieces[c - db.next], None)
    {
      RowOf(db, doc, pieces, c);
    }
    forall c | c in after.chunks && after.chunks[c].doc == doc
      ensures db.next <= c < db.next + |pieces|
    {
      if !(db.next <= c < db.next + |pieces|) {
        OnlyPiecesAdded(db, doc, pieces, c);
      }
    }
  }

  lemma ActiveAreTheRows(db: Db, doc: Id, first: Id, pieces: seq<Text>)
    requires HoldsPieces(db, doc, first, pieces, false)
    ensures ActiveIn(db, doc) == Range(first, |pieces|)
  {
  }

  lemma ListedAreTheRows(db: Db, doc: Id, first: Id, pieces: seq<Text>)
    requires HoldsPieces(db, doc, first, pieces, false)
    ensures |ListByDocument(db, doc)| == |pieces| && forall c | c in ListByDocument(db, doc) :: first <= c < first + |pieces|
  {
    ActiveAreTheRows(db, doc, first, pieces);
  }

  /** The listing is the numbering: the embedding job sees the pieces in order. */
  lemma ListingIsNumbering(db: Db, doc: Id, first: Id, pieces: seq<Text>, ids: seq<Id>)
    requires HoldsPieces(db, doc, first, pieces, false)
    requires |ids| == |pieces| && forall c | c in ids :: first <= c < first + |pieces|
    requires forall i, j | 0 <= i < j < |ids| :: ids[i] != ids[j] && ids[i] in db.chunks && ids[j] in db.chunks &&
               db.chunks[ids[i]].sequence <= db.chunks[ids[j]].sequence
    ensures ids == Numbers(first, |pieces|)
  {
    forall i, j | 0 <= i < j < |ids|
      ensures ids[i] < ids[j]
    {
      assert ids[i] in ids && ids[j] in ids;
    }
    assert forall i | 0 <= i < |ids| :: ids[i] in ids;
    forall i | 0 <= i < |ids|
      ensures ids[i] == first + i
    {
      Counting(ids, first - 1, i);
    }
  }

  lemma ListedInOrder(db: Db, doc: Id, first: Id, pieces: seq<Text>)
    requires HoldsPieces(db, doc, first, pieces, false)
    ensures ListByDocument(db, doc) == Numbers(first, |pieces|)
  {
    ListedAreTheRows(db, doc, first, pieces);
    ListingIsNumbering(db, doc, first, pieces, ListByDocument(db, doc));
  }

  lemma TodoIsNumbering(db: Db, doc: Id, first: Id, pieces: seq<Text>)
    requires HoldsPieces(db, doc, first, pieces, false)
    ensures Todo(db, doc) == Numbers(first, |pieces|)
  {
    ListedInOrder(db, doc, first, pieces);
    AllUnembedded(db, Numbers(first, |pieces|));
  }

  lemma TextsAreThePieces(db: Db, doc: Id, first: Id, pieces: seq<Text>, ids: seq<Id>)
    requires HoldsPieces(db, doc, first, pieces, false)
    requires ids == Numbers(first, |pieces|) && forall c | c in ids :: c in db.chunks
    ensures Texts(db, ids) == pieces
  {
    forall i | 0 <= i < |pieces|
      ensures Texts(db, ids)[i] == pieces[i]
    {
      assert ids[i] == first + i;
    }
  }

  predicate HasEntry(vectors: map<Id, Entry>, id: Id, entry: Entry) {
    id in vectors && vectors[id] == entry
  }

  /** Every row has the vector the provider gave at the position of its piece. */
  predicate HoldsVectors(vectors: map<Id, Entry>, first: Id, vs: seq<Vector>, model: string) {
    forall i | 0 <= i < |vs| :: HasEntry(vectors, first + i, Entry(vs[i], WithModel(map[], model)))
  }

  lemma TaggedHoldsPieces(db: Db, doc: Id, first: Id, pieces: seq<Text>, ids: seq<Id>)
    requires HoldsPieces(db, doc, first, pieces, false) && ids == Numbers(first, |pieces|)
    ensures HoldsPieces(db.(chunks := Tagged(db.chunks, Elements(ids))), doc, first, pieces, true)
  {
    forall c: Id | first <= c < first + |pieces|
      ensures c in Elements(ids)
    {
      assert ids[c - first] == c;
    }
  }

  /** A piece has no metadata of its own, so its entry is its vector and the model. */
  lemma EntriesOfPieces(db: Db, doc: Id, first: Id, pieces: seq<Text>, ids: seq<Id>, vs: seq<Vector>, model: string)
    requires HoldsPieces(db, doc, first, pieces, false) && ids == Numbers(first, |pieces|)
    requires |vs| == |ids| && forall c | c in ids :: c in db.chunks
    ensures var entries := Entries(db, ids, vs, model);
            forall i | 0 <= i < |ids| :: entries[i] == Entry(vs[i], WithModel(map[], model))
  {
    forall i | 0 <= i < |ids|
      ensures ids[i] in db.chunks && db.chunks[ids[i]].meta == map[]
    {
      assert ids[i] == first + i;
    }
  }

  lemma BatchHolds(base: map<Id, Entry>, first: Id, ids: seq<Id>, entries: seq<Entry>, i: nat)
    requires |ids| == |entries| && ids == Numbers(first, |ids|) && i < |ids|
    ensures HasEntry(base + Batch(ids, entries), first + i, entries[i])
  {
    assert ids[i] == first + i;
    BatchAt(ids, entries, i);
  }

  lemma BatchHoldsVectors(base: map<Id, Entry>, first: Id, ids: seq<Id>, entries: seq<Entry>, vs: seq<Vector>, model: string)
    requires |ids| == |entries| == |vs| && ids == Numbers(first, |ids|)
    requires forall i | 0 <= i < |ids| :: entries[i] == Entry(vs[i], WithModel(map[], model))
    ensures HoldsVectors(base + Batch(ids, entries), first, vs, model)
  {
    forall i | 0 <= i < |vs|
      ensures HasEntry(base + Batch(ids, entries), first + i, Entry(vs[i], WithModel(map[], model)))
    {
      BatchHolds(base, first, ids, entries, i);
    }
  }

  /** The provider's answer fits: one vector per piece. */
  predicate Fits(answer: Result<seq<Vector>>, pieces: seq<Text>) {
    answer.Ok? && |answer.value| == |pieces|
  }

  lemma FittingAnswer(db: Db, doc: Id, first: Id, pieces: seq<Text>, ids: seq<Id>, vs: seq<Vector>, model: string)
    requires HoldsPieces(db, doc, first, pieces, false) && ids == Numbers(first, |pieces|)
    requires |vs| == |ids| && forall c | c in ids :: c in db.chunks
    ensures var after := Embedded(db, ids, vs, model);
            HoldsPieces(after, doc, first, pieces, true) && HoldsVectors(after.vectors, first, vs, model)
  {
    EntriesOfPieces(db, doc, first, pieces, ids, vs, model);
    BatchHoldsVectors(db.vectors, first, ids, Entries(db, ids, vs, model), vs, model);
    TaggedHoldsPieces(db, doc, first, pieces, ids);
  }

  lemma AnswerOutcome(db: Db, doc: Id, first: Id, pieces: seq<Text>, ids: seq<Id>, answer: Result<seq<Vector>>, model: string)
    requires doc in db.docs && HoldsPieces(db, doc, first, pieces, false) && ids == Numbers(first, |pieces|)
    requires forall c | c in ids :: c in db.chunks
    ensures var (after, outcome) := EmbedAnswer(db, doc, ids, answer, model);
            && (outcome == Succeeded <==> Fits(answer, pieces))
            && after.docs == db.docs[doc := db.docs[doc].(status := if Fits(answer, pieces) then Ready else FailedDoc)]
            && (Fits(answer, pieces) ==>
                HoldsPieces(after, doc, first, pieces, true) && HoldsVectors(after.vectors, first, answer.value, model))
  {
    if Fits(answer, pieces) {
      FittingAnswer(db, doc, first, pieces, ids, answer.value, model);
    }
  }

  lemma EmbedsThePieces(db: Db, doc: Id, first: Id, pieces: seq<Text>, provider: Provider, model: string) returns (ids: seq<Id>)
    requires pieces != [] && HoldsPieces(db, doc, first, pieces, false)
    ensures ids == Numbers(first, |pieces|) && forall c | c in ids :: c in db.chunks
    ensures EmbedDocument(db, doc, provider, model) == EmbedAnswer(db, doc, ids, provider(pieces), model)
  {
    TodoIsNumbering(db, doc, first, pieces);
    ids := Todo(db, doc);
    TextsAreThePieces(db, doc, first, pieces, ids);
  }

  /** The embedding job on a freshly chunked document succeeds exactly when the provider
      answers with one vector per piece. */
  lemma EmbeddingOutcome(db: Db, doc: Id, first: Id, pieces: seq<Text>, provider: Provider, model: string)
    requires doc in db.docs && pieces != [] && HoldsPieces(db, doc, first, pieces, false)
    ensures var (after, outcome) := EmbedDocument(db, doc, provider, model);
            var good := Fits(provider(pieces), pieces);
            && (outcome == Succeeded <==> good)
            && after.docs == db.docs[doc := db.docs[doc].(status := if good then Ready else FailedDoc)]
            && after.jobs == db.jobs
            && (good ==> HoldsPieces(after, doc, first, pieces, true))
            && (good ==> HoldsVectors(after.vectors, first, provider(pieces).value, model))
  {
    var ids := EmbedsThePieces(db, doc, first, pieces, provider, model);
    AnswerOutcome(db, doc, first, pieces, ids, provider(pieces), model);
  }

  lemma PiecesThenJob(db: Db, doc: Id, pieces: seq<Text>)
    requires forall c | c in db.chunks :: c < db.next && db.chunks[c].doc != doc
    ensures var after := InsertJob(InsertPieces(db, doc, pieces), Some(doc), Embedding);
            && after.docs == db.docs && after.jobs == db.jobs + [Job(Some(doc), Embedding, Queued, db.now)]
            && HoldsPieces(after, doc, db.next, pieces, false)
  {
    PiecesAreNumbered(db, doc, pieces);
    PiecesAreHeld(db, doc, pieces);
  }

  /** The chunking job fails exactly when there is no text or no way to split it. */
  lemma ChunkingOutcome(db: Db, doc: Id, pieces: Result<seq<Text>>)
    requires doc in db.docs && forall c | c in db.chunks :: c < db.next && db.chunks[c].doc != doc
    ensures var (after, outcome) := StorePieces(db, doc, pieces);
            && (outcome == Succeeded <==> pieces.Ok?)
            && (pieces.Err? ==> after == db.(docs := db.docs[doc := db.docs[doc].(status := FailedDoc)]))
            && (pieces.Ok? ==> after.docs == db.docs && after.jobs == db.jobs + [Job(Some(doc), Embedding, Queued, db.now)])
            && (pieces.Ok? ==> HoldsPieces(after, doc, db.next, pieces.value, false))
  {
    if pieces.Ok? {
      PiecesThenJob(db, doc, pieces.value);
    }
  }
}

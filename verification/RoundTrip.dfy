/** Compact, then Uncompact of its summary, then the embedding job: what comes back and
    what does not. */
module RoundTrip {
  import opened Ordering
  import opened Tables
  import opened Calls
  import opened Interleaving
  import opened Effects
  import opened Embeddings
  import opened Serial

  /** Links reference chunk rows. */
  predicate LinksLive(db: Db) {
    forall l | l in db.links :: db.links[l].source in db.chunks && db.links[l].target in db.chunks
  }

  predicate Compactable(db: Db, p: Plan) {
    Sound(db) && SourcesBelow(p, db.next) && ActiveAmong(db, p.sources) != {}
  }

  function CompactThenUncompact(db: Db, p: Plan): Db {
    Finish(Finish(db, Numbering(p)).0, UncompactCall(db.next, true)).0
  }

  function WithoutEmbedding(chunks: map<Id, Chunk>, ids: set<Id>): map<Id, Chunk> {
    map c | c in chunks :: if c in ids then chunks[c].(embeddingId := None) else chunks[c]
  }

  function LinksNotTouching(links: map<Id, Link>, ids: set<Id>): map<Id, Link> {
    map l | l in links && !Touches(links[l], ids) :: links[l]
  }

  lemma SummaryHasOneRecord(db: Db, p: Plan)
    requires Compactable(db, p)
    ensures var after := CompactedDb(db, p).0;
            RecordFor(after, db.next) == Some(db.next + 1) && after.records[db.next + 1].doc == p.doc
  {
    var after := CompactedDb(db, p).0;
    assert RecordsOf(after, db.next) == {db.next + 1};
  }

  lemma ChunkComesBack(chunk: Chunk, s: Id)
    requires chunk.status.Active? && chunk.compactedBy.None?
    ensures Revived(CompactedInto(chunk, s), s) == chunk.(embeddingId := None)
  {
  }

  lemma ChunksComeBack(db: Db, p: Plan)
    requires Grounded(db)
    ensures (map c | c in ChunksAfter(db, p) :: Revived(ChunksAfter(db, p)[c], db.next)) - {db.next}
         == WithoutEmbedding(db.chunks, ActiveAmong(db, p.sources))
  {
    var hit, s, after := ActiveAmong(db, p.sources), db.next, ChunksAfter(db, p);
    forall c | c in db.chunks
      ensures c != s && Revived(after[c], s) == WithoutEmbedding(db.chunks, hit)[c]
    {
      if c in hit {
        ChunkComesBack(db.chunks[c], s);
      } else {
        assert db.chunks[c].compactedBy != Some(s);
      }
    }
  }

  lemma LinksThatComeBack(db: Db, p: Plan)
    requires LinksLive(db) && db.next !in db.chunks && db.next !in p.sources
    ensures var moved := Substituted(db.links, Elements(p.sources), db.next);
            (map l | l in moved && !Touches(moved[l], {db.next}) :: moved[l]) == LinksNotTouching(db.links, Elements(p.sources))
  {
    var s, from := db.next, Elements(p.sources);
    forall l | l in db.links
      ensures Touches(Renamed(db.links[l], from, s), {s}) <==> Touches(db.links[l], from)
      ensures !Touches(db.links[l], from) ==> Renamed(db.links[l], from, s) == db.links[l]
    {
    }
  }

  lemma RecordsComeBack(db: Db, p: Plan)
    requires forall r | r in db.records :: r < db.next && db.records[r].summary < db.next
    ensures var made := db.records[db.next + 1 := Record(db.next, p.sources, p.doc, p.createdBy)];
            (map r | r in made && made[r].summary != db.next :: made[r]) == db.records
  {
  }

  lemma VectorsComeBack(db: Db, p: Plan)
    requires db.next !in db.vectors
    ensures VectorsAfter(db, p) - {db.next} == db.vectors - Elements(p.sources)
  {
  }

  lemma RoundTripRuns(db: Db, p: Plan)
    requires Compactable(db, p)
    ensures CompactThenUncompact(db, p) == UncompactedDb(CompactedDb(db, p).0, db.next, p.doc)
  {
    FinishCompaction(db, p);
    SummaryHasOneRecord(db, p);
    FinishUncompaction(CompactedDb(db, p).0, db.next, true);
  }

  lemma ReturnedFields(db: Db, p: Plan)
    requires ActiveAmong(db, p.sources) != {}
    ensures var back := UncompactedDb(CompactedDb(db, p).0, db.next, p.doc);
            var links := Substituted(db.links, Elements(p.sources), db.next);
            var records := db.records[db.next + 1 := Record(db.next, p.sources, p.doc, p.createdBy)];
            && back.chunks == (map c | c in ChunksAfter(db, p) :: Revived(ChunksAfter(db, p)[c], db.next)) - {db.next}
            && back.vectors == VectorsAfter(db, p) - {db.next}
            && back.links == (map l | l in links && !Touches(links[l], {db.next}) :: links[l])
            && back.records == (map r | r in records && records[r].summary != db.next :: records[r])
            && back.docs == db.docs
  {
  }

  /** Compact then Uncompact: rows, statuses, sequences and records are as before; the
      sources that were active lose their embedding, and every link that touched a
      listed id is deleted with the summary. */
  lemma RoundTripEffect(db: Db, p: Plan)
    requires Compactable(db, p) && LinksLive(db)
    ensures var back := CompactThenUncompact(db, p);
            && back.chunks == WithoutEmbedding(db.chunks, ActiveAmong(db, p.sources))
            && back.vectors == db.vectors - Elements(p.sources)
            && back.links == LinksNotTouching(db.links, Elements(p.sources))
            && back.records == db.records
            && back.docs == db.docs
  {
    RoundTripRuns(db, p);
    ReturnedFields(db, p);
    ChunksComeBack(db, p);
    LinksThatComeBack(db, p);
    assert RecordsLive(db) && db.next !in db.chunks;
    RecordsComeBack(db, p);
    VectorsComeBack(db, p);
  }

  /** The documentation has Uncompact hand transferred links back. The code does not:
      the links are as before exactly when none touched a listed id. */
  lemma LinksSurviveIff(db: Db, p: Plan)
    requires Compactable(db, p) && LinksLive(db)
    ensures CompactThenUncompact(db, p).links == db.links <==>
            forall l | l in db.links :: !Touches(db.links[l], Elements(p.sources))
  {
    RoundTripEffect(db, p);
    var kept := LinksNotTouching(db.links, Elements(p.sources));
    if kept == db.links {
      assert forall l | l in db.links :: l in kept;
    }
  }

  // ----- the embedding job afterwards -------------------------------------------------

  /** The provider answers each text with a vector that depends on the text alone. */
  ghost predicate Deterministic(provider: Provider, embed: Text -> Vector) {
    forall texts: seq<Text> ::
      provider(texts).Ok? && |provider(texts).value| == |texts| &&
      forall i | 0 <= i < |texts| :: provider(texts).value[i] == embed(texts[i])
  }

  function EntryFor(chunk: Chunk, embed: Text -> Vector, model: string): Entry {
    Entry(embed(chunk.content), WithModel(chunk.meta, model))
  }

  /** Every active chunk of the document carries that provider's vector. */
  predicate EmbeddedBy(db: Db, doc: Id, embed: Text -> Vector, model: string) {
    forall c | c in db.chunks && c in ActiveIn(db, doc) ::
      db.chunks[c].embeddingId == Some(c) && c in db.vectors && db.vectors[c] == EntryFor(db.chunks[c], embed, model)
  }

  function Missing(db: Db, doc: Id): set<Id> {
    set c | c in ActiveIn(db, doc) && db.chunks[c].embeddingId.None?
  }

  function EntriesFor(db: Db, ids: set<Id>, embed: Text -> Vector, model: string): map<Id, Entry> {
    map c | c in ids && c in db.chunks :: EntryFor(db.chunks[c], embed, model)
  }

  /** The embedding job with a deterministic provider, in closed form. */
  function FilledIn(db: Db, doc: Id, embed: Text -> Vector, model: string): Db {
    db.(chunks := Tagged(db.chunks, Missing(db, doc)),
        vectors := db.vectors + EntriesFor(db, Missing(db, doc), embed, model))
  }

  lemma TodoIsMissing(db: Db, doc: Id)
    ensures forall c :: c in Todo(db, doc) <==> c in Missing(db, doc)
  {
  }

  lemma AnswersAreInOrder(db: Db, todo: seq<Id>, provider: Provider, embed: Text -> Vector)
    requires Deterministic(provider, embed) && forall c | c in todo :: c in db.chunks
    ensures var answer := provider(Texts(db, todo));
            answer.Ok? && |answer.value| == |todo| &&
            forall i | 0 <= i < |todo| :: answer.value[i] == embed(db.chunks[todo[i]].content)
  {
    var texts := Texts(db, todo);
    assert provider(texts).Ok?;
    forall i | 0 <= i < |todo|
      ensures provider(texts).value[i] == embed(db.chunks[todo[i]].content)
    {
      assert texts[i] == db.chunks[todo[i]].content;
    }
  }

  lemma {:induction false} BatchOfFunction(db: Db, ids: seq<Id>, entries: seq<Entry>, embed: Text -> Vector, model: string)
    requires |ids| == |entries| && forall c | c in ids :: c in db.chunks
    requires forall i | 0 <= i < |ids| :: entries[i] == EntryFor(db.chunks[ids[i]], embed, model)
    ensures Batch(ids, entries) == EntriesFor(db, Elements(ids), embed, model)
  {
    if ids != [] {
      var n := |ids| - 1;
      assert ids == ids[..n] + [ids[n]];
      BatchOfFunction(db, ids[..n], entries[..n], embed, model);
    }
  }

  lemma EmbeddedIsFilledIn(db: Db, doc: Id, todo: seq<Id>, vs: seq<Vector>, embed: Text -> Vector, model: string)
    requires |vs| == |todo| && Elements(todo) == Missing(db, doc) && forall c | c in todo :: c in db.chunks
    requires forall i | 0 <= i < |todo| :: vs[i] == embed(db.chunks[todo[i]].content)
    ensures Embedded(db, todo, vs, model) == FilledIn(db, doc, embed, model)
  {
    BatchOfFunction(db, todo, Entries(db, todo, vs, model), embed, model);
  }

  lemma NothingToFillIn(db: Db, doc: Id, embed: Text -> Vector, model: string)
    requires Missing(db, doc) == {}
    ensures FilledIn(db, doc, embed, model) == db
  {
    assert Tagged(db.chunks, {}) == db.chunks;
    assert db.vectors + EntriesFor(db, {}, embed, model) == db.vectors;
  }

  lemma EmbeddingFillsIn(db: Db, doc: Id, provider: Provider, embed: Text -> Vector, model: string)
    requires Deterministic(provider, embed)
    ensures EmbedDocument(db, doc, provider, model) == Conclude(FilledIn(db, doc, embed, model), doc, Ready, Succeeded)
  {
    TodoIsMissing(db, doc);
    assert Elements(Todo(db, doc)) == Missing(db, doc);
    if Todo(db, doc) == [] {
      NothingToFillIn(db, doc, embed, model);
    } else {
      AnswersAreInOrder(db, Todo(db, doc), provider, embed);
      EmbeddedIsFilledIn(db, doc, Todo(db, doc), provider(Texts(db, Todo(db, doc))).value, embed, model);
    }
  }

  lemma MissingAre(db: Db, back: Db, doc: Id, hit: set<Id>)
    requires hit <= ActiveIn(db, doc) && back.chunks == WithoutEmbedding(db.chunks, hit)
    requires forall c | c in db.chunks && c in ActiveIn(db, doc) :: db.chunks[c].embeddingId == Some(c)
    ensures Missing(back, doc) == hit
  {
  }

  lemma VectorsRefilled(db: Db, hit: set<Id>, sources: seq<Id>, added: map<Id, Entry>)
    requires added.Keys == hit && hit <= Elements(sources)
    requires forall v | v in db.vectors && v in sources :: v in hit
    requires forall c | c in hit :: c in db.vectors && added[c] == db.vectors[c]
    ensures db.vectors - Elements(sources) + added == db.vectors
  {
  }

  lemma FillingInRestoresChunks(db: Db, back: Db, doc: Id, hit: set<Id>, embed: Text -> Vector, model: string)
    requires EmbeddedBy(db, doc, embed, model) && hit <= ActiveIn(db, doc) && back.chunks == WithoutEmbedding(db.chunks, hit)
    ensures FilledIn(back, doc, embed, model).chunks == db.chunks
  {
    MissingAre(db, back, doc, hit);
  }

  lemma FillingInRestoresVectors(db: Db, back: Db, doc: Id, sources: seq<Id>, embed: Text -> Vector, model: string)
    requires Agreement(db) && EmbeddedBy(db, doc, embed, model) && ActiveAmong(db, sources) <= ActiveIn(db, doc)
    requires back.chunks == WithoutEmbedding(db.chunks, ActiveAmong(db, sources)) && back.vectors == db.vectors - Elements(sources)
    ensures FilledIn(back, doc, embed, model).vectors == db.vectors
  {
    var hit := ActiveAmong(db, sources);
    MissingAre(db, back, doc, hit);
    forall v | v in db.vectors && v in sources
      ensures v in hit
    {
      assert v in db.chunks && db.chunks[v].status.Active?;
    }
    var added := EntriesFor(back, hit, embed, model);
    forall c | c in hit
      ensures c in db.vectors && added[c] == db.vectors[c]
    {
      assert c in ActiveIn(db, doc);
    }
    VectorsRefilled(db, hit, sources, added);
  }

  /** Compact, Uncompact and the embedding job return the chunk table and the vector
      backend to where they were. */
  lemma CompactionRoundTrip(db: Db, p: Plan, provider: Provider, embed: Text -> Vector, model: string)
    requires Compactable(db, p) && LinksLive(db) && p.doc in db.docs
    requires ActiveAmong(db, p.sources) <= ActiveIn(db, p.doc)
    requires Deterministic(provider, embed) && EmbeddedBy(db, p.doc, embed, model)
    ensures var (end, outcome) := EmbedDocument(CompactThenUncompact(db, p), p.doc, provider, model);
            outcome == Succeeded && end.chunks == db.chunks && end.vectors == db.vectors
  {
    var back := CompactThenUncompact(db, p);
    RoundTripEffect(db, p);
    EmbeddingFillsIn(back, p.doc, provider, embed, model);
    FillingInRestoresChunks(db, back, p.doc, ActiveAmong(db, p.sources), embed, model);
    FillingInRestoresVectors(db, back, p.doc, p.sources, embed, model);
  }

  // ----- what Compact reports ------------------------------------------------------------

  lemma {:induction false} ElementsCount(ids: seq<Id>)
    ensures |Elements(ids)| <= |ids|
    ensures |Elements(ids)| == |ids| <==> forall i, j | 0 <= i < j < |ids| :: ids[i] != ids[j]
  {
    if ids != [] {
      var rest := ids[1..];
      ElementsCount(rest);
      assert Elements(ids) == {ids[0]} + Elements(rest);
      if ids[0] in rest {
        var j :| 0 <= j < |rest| && rest[j] == ids[0];
        assert ids[j + 1] == ids[0] && Elements(ids) == Elements(rest);
      } else {
        assert |Elements(ids)| == 1 + |Elements(rest)|;
        assert forall i, j | 0 <= i < j < |rest| :: ids[i + 1] == rest[i] && ids[j + 1] == rest[j];
      }
    }
  }

  lemma ChildrenAreTheActive(db: Db, p: Plan)
    requires Compactable(db, p)
    ensures Children(CompactedDb(db, p).0, db.next) == ActiveAmong(db, p.sources)
  {
    assert forall c | c in db.chunks :: db.chunks[c].compactedBy != Some(db.next);
  }

  lemma ActiveCount(db: Db, ids: seq<Id>)
    ensures |ActiveAmong(db, ids)| <= |Elements(ids)|
    ensures |ActiveAmong(db, ids)| == |Elements(ids)| <==> forall c | c in ids :: IsActive(db, c)
  {
    var hit, all := ActiveAmong(db, ids), Elements(ids);
    assert all == hit + (all - hit);
    assert |all| == |hit| + |all - hit|;
    if hit == all {
      assert forall c | c in ids :: c in hit;
    }
  }

  /** `compacted_count` is the length of the request; it is the number of chunks that were
      compacted exactly when the listed ids are distinct and all active. */
  lemma ReportedCountIff(db: Db, p: Plan)
    requires Compactable(db, p)
    ensures |Children(CompactedDb(db, p).0, db.next)| == |p.sources| <==>
            (forall i, j | 0 <= i < j < |p.sources| :: p.sources[i] != p.sources[j]) && forall c | c in p.sources :: IsActive(db, c)
  {
    ChildrenAreTheActive(db, p);
    ElementsCount(p.sources);
    ActiveCount(db, p.sources);
  }
}

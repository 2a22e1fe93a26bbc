/** What a request does, told by its arguments: compaction by hand and by the worker,
    uncompaction, ingestion and deletion of chunks. */
module Requests {
  import opened Ordering
  import opened Tables
  import opened Calls
  import opened Effects
  import opened Embeddings
  import opened Serial
  import opened Handlers
  import Messages
  import Queue
  import Runs
  import Workers

  // ----- the parts of a compaction -------------------------------------------------------------

  /** One row is new, and no other than it appears or goes. */
  predicate Adds(db: Db, after: Db, s: Id, row: Chunk) {
    s !in db.chunks && after.chunks.Keys == db.chunks.Keys + {s} && after.chunks[s] == row
  }

  /** Exactly the active chunks among `ids` are compacted into `s`. */
  predicate Marks(db: Db, after: Db, s: Id, ids: seq<Id>) {
    forall c | c in db.chunks :: c in after.chunks && after.chunks[c] ==
      if c in ids && db.chunks[c].status == Active
      then db.chunks[c].(status := Compacted, compactedBy := Some(s), embeddingId := None) else db.chunks[c]
  }

  /** Exactly the link ends among `ids` are moved to `s`. */
  predicate Moves(db: Db, after: Db, s: Id, ids: seq<Id>) {
    && after.links.Keys == db.links.Keys
    && forall l | l in db.links :: after.links[l] ==
         Link(if db.links[l].source in ids then s else db.links[l].source,
              if db.links[l].target in ids then s else db.links[l].target,
              db.links[l].kind, db.links[l].createdBy, db.links[l].meta)
  }

  /** The vectors of `ids` are dropped, and `s` has this one if one was given. */
  ghost predicate Stores(db: Db, after: Db, s: Id, ids: seq<Id>, entry: Option<Entry>) {
    && (forall v | v != s :: v in after.vectors <==> v in db.vectors && v !in ids)
    && (forall v | v in after.vectors && v != s :: v in db.vectors && after.vectors[v] == db.vectors[v])
    && (entry.Some? ==> s in after.vectors && after.vectors[s] == entry.value)
    && (entry.None? ==> (s in after.vectors <==> s in db.vectors))
  }

  ghost predicate Records(db: Db, after: Db, record: Record) {
    exists r :: r in after.records && r !in db.records && after.records == db.records[r := record]
  }

  predicate Enqueues(db: Db, after: Db, doc: Id, queued: bool) {
    after.jobs == db.jobs + if queued then [Job(Some(doc), Embedding, Queued, db.now)] else []
  }

  /** Some listed id is a chunk, and active. */
  predicate SomeActive(db: Db, ids: seq<Id>) {
    exists c :: c in ids && c in db.chunks && db.chunks[c].status == Active
  }

  lemma SomeActiveIff(db: Db, ids: seq<Id>)
    ensures SomeActive(db, ids) <==> ActiveAmong(db, ids) != {}
  {
    if c :| c in ids && c in db.chunks && db.chunks[c].status == Active {
      assert c in ActiveAmong(db, ids);
    }
    if c :| c in ActiveAmong(db, ids) {
      assert c in ids && c in db.chunks && db.chunks[c].status == Active;
    }
  }

  predicate IsNew(db: Db, ids: seq<Id>) {
    db.next !in ids && db.next !in db.chunks && forall r | r in db.records :: r < db.next
  }

  /** The row of a summary. */
  function Summary(db: Db, doc: Id, content: Text, embedded: bool, meta: Meta): Chunk {
    Chunk(doc, NextSequence(db, doc), content, if embedded then Some(db.next) else None, Active, None, meta)
  }

  lemma PlanMovesAndStores(db: Db, p: Plan)
    requires IsNew(db, p.sources)
    ensures var after := CompactedDb(db, p).0;
            && Moves(db, after, db.next, p.sources) && Stores(db, after, db.next, p.sources, p.entry)
            && Enqueues(db, after, p.doc, p.entry.None? && p.enqueue) && after.docs == db.docs && after.now == db.now
  {
    var after := CompactedDb(db, p).0;
    assert after.links == Substituted(db.links, Elements(p.sources), db.next) && after.vectors == VectorsAfter(db, p);
    assert db.jobs + [] == db.jobs;
  }

  lemma PlanMarks(db: Db, p: Plan)
    requires IsNew(db, p.sources) && SomeActive(db, p.sources)
    ensures var (after, outcome) := CompactedDb(db, p);
            && outcome == Summarised(db.next)
            && Adds(db, after, db.next, Summary(db, p.doc, p.content, p.entry.Some?, p.meta))
            && Marks(db, after, db.next, p.sources)
            && Records(db, after, Record(db.next, p.sources, p.doc, p.createdBy))
  {
    SomeActiveIff(db, p.sources);
    var after := CompactedDb(db, p).0;
    assert after.chunks == ChunksAfter(db, p);
    forall c | c in db.chunks
      ensures c in ActiveAmong(db, p.sources) <==> c in p.sources && db.chunks[c].status == Active
    {
    }
    assert db.next + 1 in after.records && db.next + 1 !in db.records;
  }

  /** Refused, it leaves the row of the summary and changes no other, and keeps no record. */
  lemma PlanWithoutActive(db: Db, p: Plan)
    requires IsNew(db, p.sources) && !SomeActive(db, p.sources)
    ensures var (after, outcome) := CompactedDb(db, p);
            && outcome == Refused(NoActiveChunks) && after.records == db.records
            && after.chunks == db.chunks[db.next := Summary(db, p.doc, p.content, p.entry.Some?, p.meta)]
  {
    SomeActiveIff(db, p.sources);
  }

  // ----- Compact ----------------------------------------------------------------------------------

  /** The metadata of a summary says how many chunks it was asked to stand for. */
  function Counted(meta: Meta, n: nat): Meta {
    meta["compaction_source_count" := Num(n)]
  }

  /** Compact, asked by somebody allowed for an existing document, with content, and with an
      active chunk among the ids: the active ones among all the ids are compacted, all link
      ends among the ids move, the record keeps the list as it came, and the summary has the
      content and the vector, or a job that will compute it. */
  lemma CompactDoesAsAsked(db: Db, doc: Id, ids: seq<Id>, content: Text, embedding: Vector, meta: Meta, hasQueue: bool, who: string)
    requires doc in db.docs && content != [] && SomeActive(db, ids) && IsNew(db, ids)
    ensures var (after, outcome) := Finish(db, CompactCall(db, true, doc, ids, content, embedding, meta, hasQueue, who));
            && outcome == Summarised(db.next)
            && Adds(db, after, db.next, Summary(db, doc, content, embedding != [], Counted(meta, |ids|)))
            && Marks(db, after, db.next, ids) && Moves(db, after, db.next, ids)
            && Stores(db, after, db.next, ids, if embedding == [] then None else Some(Entry(embedding, Counted(meta, |ids|))))
            && Records(db, after, Record(db.next, ids, doc, who))
            && Enqueues(db, after, doc, embedding == [] && hasQueue)
            && after.docs == db.docs && after.now == db.now
  {
    var entry := if embedding == [] then None else Some(Entry(embedding, Counted(meta, |ids|)));
    var p := Plan(doc, ids, content, Counted(meta, |ids|), entry, hasQueue, who);
    assert CompactCall(db, true, doc, ids, content, embedding, meta, hasQueue, who) == Numbering(p);
    FinishCompaction(db, p);
    PlanMarks(db, p);
    PlanMovesAndStores(db, p);
  }

  /** Each refusal has its own case, in this order, and those before the first write leave the
      tables alone. */
  lemma CompactRefusesIff(db: Db, allowed: bool, doc: Id, ids: seq<Id>, content: Text, embedding: Vector, meta: Meta,
                          hasQueue: bool, who: string)
    requires IsNew(db, ids)
    ensures var (after, outcome) := Finish(db, CompactCall(db, allowed, doc, ids, content, embedding, meta, hasQueue, who));
            && (outcome == Refused(Invalid) <==> ids == [] || content == [])
            && (outcome == Refused(NotFound) <==> ids != [] && content != [] && doc !in db.docs)
            && (outcome == Refused(Denied) <==> ids != [] && content != [] && doc in db.docs && !allowed)
            && (outcome == Refused(NoActiveChunks) <==> content != [] && ids != [] && doc in db.docs && allowed && !SomeActive(db, ids))
            && (outcome in {Refused(Invalid), Refused(NotFound), Refused(Denied)} ==> after == db)
            && (outcome == Refused(NoActiveChunks) ==>
                after.records == db.records && after.docs == db.docs
                && after.chunks == db.chunks[db.next := Summary(db, doc, content, embedding != [], Counted(meta, |ids|))]
                && Moves(db, after, db.next, ids))
  {
    if ids != [] && content != [] && doc in db.docs && allowed {
      var entry := if embedding == [] then None else Some(Entry(embedding, Counted(meta, |ids|)));
      var p := Plan(doc, ids, content, Counted(meta, |ids|), entry, hasQueue, who);
      assert CompactCall(db, allowed, doc, ids, content, embedding, meta, hasQueue, who) == Numbering(p);
      FinishCompaction(db, p);
      if SomeActive(db, ids) {
        PlanMarks(db, p);
      } else {
        PlanWithoutActive(db, p);
        PlanMovesAndStores(db, p);
      }
    }
  }

  // ----- the compaction worker ------------------------------------------------------------------

  /** With a request the worker takes the requested ids that are active, each where it stands
      in the request, and leaves out none; without one, the active chunks of the document. */
  lemma SelectionIsTheRequest(db: Db, doc: Id, requested: seq<Id>) returns (at: seq<nat>)
    ensures requested != [] ==>
      && PickedAt(requested, Selected(db, doc, requested), at)
      && forall i: nat | i < |requested| :: i in at <==> requested[i] in db.chunks && db.chunks[requested[i]].status == Active
    ensures requested == [] ==>
      && (forall c :: c in Selected(db, doc, requested) <==> c in db.chunks && db.chunks[c].doc == doc && db.chunks[c].status == Active)
      && (forall i, k | 0 <= i < k < |Selected(db, doc, requested)| :: Selected(db, doc, requested)[i] != Selected(db, doc, requested)[k])
  {
    at := ActiveAt(db, requested);
  }

  lemma {:induction false} ActiveAt(db: Db, ids: seq<Id>) returns (at: seq<nat>)
    ensures PickedAt(ids, FilterActive(db, ids), at)
    ensures forall i: nat | i < |ids| :: i in at <==> ids[i] in db.chunks && db.chunks[ids[i]].status == Active
  {
    if ids == [] {
      at := [];
    } else {
      var n := |ids| - 1;
      var before := ActiveAt(db, ids[..n]);
      PickOne(ids[..n], FilterActive(db, ids[..n]), before, ids[n]);
      assert ids == ids[..n] + [ids[n]];
      at := before + if IsActive(db, ids[n]) then [n] else [];
      assert forall i :: i in at <==> i in before || (i == n && IsActive(db, ids[n]));
    }
  }

  function Modelled(meta: Meta, model: string): Meta {
    if model == "" then meta else meta["embedding_model" := Str(model)]
  }

  /** The worker, given a summary and vectors: the selected chunks are compacted, with the
      first vector and no job, and the record names them and who asked. */
  lemma WorkerCompacts(db: Db, doc: Id, requested: seq<Id>, llm: Summariser, provider: Provider, model: string, who: string)
    requires var sources := Selected(db, doc, requested);
             |sources| >= 2 && IsNew(db, sources) && (forall c | c in sources :: c in db.chunks) &&
             llm(Texts(db, sources)).Ok? && llm(Texts(db, sources)).value != [] && provider([llm(Texts(db, sources)).value]).Ok?
    ensures var sources := Selected(db, doc, requested);
            var content, counted: Meta := llm(Texts(db, sources)).value, map["compaction_source_count" := Num(|sources|)];
            var vs := provider([content]).value;
            var (after, outcome) := CompactionJob(db, doc, requested, llm, provider, model, who);
            && outcome == Summarised(db.next)
            && Adds(db, after, db.next, Summary(db, doc, content, vs != [], counted))
            && Marks(db, after, db.next, sources) && Moves(db, after, db.next, sources)
            && Stores(db, after, db.next, sources, if vs == [] then None else Some(Entry(vs[0], Modelled(counted, model))))
            && Records(db, after, Record(db.next, sources, doc, who))
            && after.jobs == db.jobs && after.docs == db.docs && after.now == db.now
  {
    var sources := Selected(db, doc, requested);
    var content, counted: Meta := llm(Texts(db, sources)).value, map["compaction_source_count" := Num(|sources|)];
    var vs := provider([content]).value;
    var p := Plan(doc, sources, content, counted, if vs == [] then None else Some(Entry(vs[0], Modelled(counted, model))), false, who);
    assert WorkerCall(doc, sources, content, vs, model, who) == Numbering(p);
    assert CompactionJob(db, doc, requested, llm, provider, model, who) == Finish(db, Numbering(p));
    FinishCompaction(db, p);
    assert sources[0] in sources && IsActive(db, sources[0]);
    PlanMarks(db, p);
    PlanMovesAndStores(db, p);
  }

  /** When the worker does not get that far: fewer than two chunks are no work; a model that
      fails or says nothing leaves the tables alone; a provider that fails leaves the summary. */
  lemma WorkerStopsShort(db: Db, doc: Id, requested: seq<Id>, llm: Summariser, provider: Provider, model: string, who: string)
    requires forall c | c in Selected(db, doc, requested) :: c in db.chunks
    ensures var sources, (after, outcome) := Selected(db, doc, requested), CompactionJob(db, doc, requested, llm, provider, model, who);
            && (|sources| < 2 ==> outcome == Nothing && after == db)
            && (|sources| >= 2 && llm(Texts(db, sources)).Err? ==> outcome == Refused(llm(Texts(db, sources)).error) && after == db)
            && (|sources| >= 2 && llm(Texts(db, sources)) == Ok([]) ==> outcome == Refused(ProviderFailed) && after == db)
            && (|sources| >= 2 && llm(Texts(db, sources)).Ok? && llm(Texts(db, sources)).value != [] &&
                provider([llm(Texts(db, sources)).value]).Err? ==>
                && outcome == Refused(provider([llm(Texts(db, sources)).value]).error)
                && after == db.(next := db.next + 1, chunks := db.chunks[db.next :=
                     Summary(db, doc, llm(Texts(db, sources)).value, false, map["compaction_source_count" := Num(|sources|)])]))
  {
  }

  /** A whole compaction job of the pool does that, and nothing to the job table but what the
      pool does. */
  lemma CompactionJobCompacts(db: Db, j: nat, s: Workers.Services)
    requires Workers.HasWork(db, j) && db.jobs[j].kind == Compaction
    ensures var job, doc := s.payload(j), db.jobs[j].doc.value;
            var (after, outcome) := CompactionJob(Workers.Claimed(db, j), doc, job.requested, s.llm, s.provider, s.model, job.who);
            Workers.RunJob(db, j, s) ==
            after.(jobs := Queue.SetStatus(db.jobs, j, if outcome.Refused? then Failed else Completed))
  {
    var job := s.payload(j);
    Workers.CompactionInsertsNothing(Workers.Claimed(db, j), db.jobs[j].doc.value, job, s);
    assert Queue.SetStatus(Workers.Claimed(db, j).jobs, j, Failed) == Queue.SetStatus(db.jobs, j, Failed);
    assert Queue.SetStatus(Workers.Claimed(db, j).jobs, j, Completed) == Queue.SetStatus(db.jobs, j, Completed);
  }

  /** A whole messages job inserts a maintenance job for each fact that is not empty. */
  lemma MessagesJobFansOut(db: Db, j: nat, s: Workers.Services)
    requires Workers.HasWork(db, j) && db.jobs[j].kind == MemoryMessages
    requires var progress := s.payload(j).progress;
             progress.principal != "" && progress.messages.Some? && progress.messages.value != [] &&
             s.finder(Messages.Transcript(progress.messages.value)).Ok?
    ensures var facts := s.finder(Messages.Transcript(s.payload(j).progress.messages.value)).value;
            Workers.RunJob(db, j, s) ==
            db.(jobs := Queue.SetStatus(db.jobs, j, Completed)
                        + Runs.Copies(|Messages.NotEmpty(facts)|, Job(None, MemoryMaintenance, Queued, db.now)))
  {
    Messages.MessagesOutcome(Workers.Claimed(db, j), s.payload(j).progress, s.finder);
    var facts := s.finder(Messages.Transcript(s.payload(j).progress.messages.value)).value;
    var more := Runs.Copies(|Messages.NotEmpty(facts)|, Job(None, MemoryMaintenance, Queued, db.now));
    assert Queue.SetStatus(Queue.SetStatus(db.jobs, j, Running) + more, j, Completed) == Queue.SetStatus(db.jobs, j, Completed) + more;
  }

  // ----- Uncompact --------------------------------------------------------------------------------

  /** The chunks compacted into `s` are active again, and `s` is gone; no other row changes. */
  predicate BringsBack(db: Db, after: Db, s: Id) {
    && after.chunks.Keys == db.chunks.Keys - {s}
    && forall c | c in after.chunks :: c in db.chunks && after.chunks[c] ==
         if db.chunks[c].compactedBy == Some(s) then db.chunks[c].(status := Active, compactedBy := None) else db.chunks[c]
  }

  /** Nothing of the summary is left, and everything that is not of it. */
  ghost predicate Forgets(db: Db, after: Db, s: Id) {
    && (forall l :: l in after.links <==> l in db.links && db.links[l].source != s && db.links[l].target != s)
    && (forall l | l in after.links :: after.links[l] == db.links[l])
    && (forall r :: r in after.records <==> r in db.records && db.records[r].summary != s)
    && (forall r | r in after.records :: after.records[r] == db.records[r])
    && (forall v :: v in after.vectors <==> v in db.vectors && v != s)
    && (forall v | v in after.vectors :: after.vectors[v] == db.vectors[v])
  }

  lemma UncompactedIs(db: Db, s: Id, doc: Id)
    requires s in db.chunks
    ensures var after := UncompactedDb(db, s, doc);
            BringsBack(db, after, s) && Forgets(db, after, s) && Enqueues(db, after, doc, true) && after.docs == db.docs
  {
  }

  /** Uncompact: refused without a record, refused to whom may not, and otherwise undone, with
      a job for the embeddings of a document some record of the summary names. */
  lemma UncompactDoesAsAsked(db: Db, s: Id, allowed: bool)
    requires forall r | r in db.records :: db.records[r].summary in db.chunks
    ensures var (after, outcome) := Finish(db, UncompactCall(s, allowed));
            if forall r | r in db.records :: db.records[r].summary != s then outcome == Refused(NotFound) && after == db
            else if !allowed then outcome == Refused(Denied) && after == db
            else
              && outcome.Restored? && (forall c :: c in outcome.ids <==> c in db.chunks && db.chunks[c].compactedBy == Some(s))
              && BringsBack(db, after, s) && Forgets(db, after, s) && after.docs == db.docs
              && exists r :: r in db.records && db.records[r].summary == s && Enqueues(db, after, db.records[r].doc, true)
  {
    var found := RecordFor(db, s);
    if found.None? {
      forall r | r in db.records
        ensures db.records[r].summary != s
      {
        assert r !in RecordsOf(db, s);
      }
      FinishLooking(db, s, allowed);
    } else {
      var r := found.value;
      assert r in db.records && db.records[r].summary == s;
      FinishUncompaction(db, s, allowed);
      UncompactedIs(db, s, db.records[r].doc);
    }
  }

  // ----- ingestion and deletion -------------------------------------------------------------------

  /** The row and the vector of an ingested chunk. */
  predicate IsIngested(db: Db, c: Id, doc: Id, x: Input) {
    && c in db.chunks
    && db.chunks[c] == Chunk(doc, x.sequence, x.content, if x.embedding == [] then None else Some(c), Active, None, x.meta)
    && (x.embedding != [] ==> c in db.vectors && db.vectors[c] == Entry(x.embedding, x.meta))
  }

  ghost predicate OnlyAddsFrom(db: Db, after: Db, n: nat) {
    && after == db.(chunks := after.chunks, vectors := after.vectors, next := db.next + n)
    && (forall c :: c in after.chunks <==> c in db.chunks || db.next <= c < db.next + n)
    && (forall c | c in db.chunks && c < db.next :: after.chunks[c] == db.chunks[c])
    && (forall v | v in db.vectors && v < db.next :: v in after.vectors && after.vectors[v] == db.vectors[v])
    && (forall v | v in after.vectors && !(db.next <= v < db.next + n) :: v in db.vectors)
  }

  predicate IdsBelowNext(db: Db) {
    (forall c | c in db.chunks :: c < db.next) && forall v | v in db.vectors :: v < db.next
  }

  /** No other row or vector changes. */
  lemma {:induction false} IngestOnlyAdds(db: Db, doc: Id, xs: seq<Input>)
    requires IdsBelowNext(db)
    ensures OnlyAddsFrom(db, IngestAll(db, doc, xs), |xs|) && IdsBelowNext(IngestAll(db, doc, xs))
  {
    if xs != [] {
      var n := |xs| - 1;
      var before := IngestAll(db, doc, xs[..n]);
      IngestOnlyAdds(db, doc, xs[..n]);
      IngestOneStores(before, doc, xs[n]);
      AddingOneMore(db, before, IngestOne(before, doc, xs[n]), n);
    }
  }

  /** Input `i` becomes the row with the `i`-th new id, with its own content, sequence,
      metadata and vector. */
  lemma {:induction false} IngestStoresInput(db: Db, doc: Id, xs: seq<Input>, i: nat)
    requires IdsBelowNext(db) && i < |xs|
    ensures IsIngested(IngestAll(db, doc, xs), db.next + i, doc, xs[i])
  {
    var n := |xs| - 1;
    var before := IngestAll(db, doc, xs[..n]);
    IngestOnlyAdds(db, doc, xs[..n]);
    IngestOneStores(before, doc, xs[n]);
    if i < n {
      IngestStoresInput(db, doc, xs[..n], i);
      IngestedStays(before, IngestOne(before, doc, xs[n]), db.next + i, doc, xs[i]);
    }
  }

  lemma AddingOneMore(db: Db, before: Db, after: Db, n: nat)
    requires OnlyAddsFrom(db, before, n) && OnlyAddsFrom(before, after, 1)
    ensures OnlyAddsFrom(db, after, n + 1)
  {
  }

  lemma IngestedStays(before: Db, after: Db, c: Id, doc: Id, x: Input)
    requires IsIngested(before, c, doc, x) && OnlyAddsFrom(before, after, 1) && c < before.next
    ensures IsIngested(after, c, doc, x)
  {
  }

  lemma IngestOneStores(db: Db, doc: Id, x: Input)
    requires IdsBelowNext(db)
    ensures OnlyAddsFrom(db, IngestOne(db, doc, x), 1) && IsIngested(IngestOne(db, doc, x), db.next, doc, x)
    ensures IdsBelowNext(IngestOne(db, doc, x))
  {
  }

  /** DeleteChunk refuses exactly a chunk that is not there, and then nothing changes, or one
      that others are compacted into, and then only its vector goes. Otherwise row, vector,
      links and records of it are gone, and nothing else. */
  lemma DeletionIff(db: Db, id: Id)
    ensures var (after, r) := DeleteChunk(db, id);
            if id !in db.chunks then r == Err(NotFound) && after == db
            else if exists c :: c in db.chunks && c != id && db.chunks[c].compactedBy == Some(id) then
              r == Err(ForeignKey) && after == db.(vectors := db.vectors - {id})
            else
              && r == Ok(()) && after.chunks == db.chunks - {id} && Forgets(db, after, id)
              && after.docs == db.docs && after.jobs == db.jobs && after.next == db.next
  {
    if id in db.chunks {
      var unstored := DeleteVectors(db, {id});
      assert Children(unstored, id) == Children(db, id);
      if c :| c in db.chunks && c != id && db.chunks[c].compactedBy == Some(id) {
        assert c in Children(db, id);
      } else {
        assert Children(db, id) <= {id};
      }
    }
  }

  // ----- the embedding job ------------------------------------------------------------------------

  /** What is stored with a vector: the metadata of the chunk itself, and the model that made
      the vector, if it has a name. */
  lemma EntryTellsTheModel(db: Db, ids: seq<Id>, vs: seq<Vector>, model: string, i: nat, key: string)
    requires |vs| == |ids| && (forall c | c in ids :: c in db.chunks) && i < |ids|
    ensures var entry, own := Entries(db, ids, vs, model)[i], db.chunks[ids[i]].meta;
            && entry.embedding == vs[i]
            && (model == "" || key != "embedding_model" ==> (key in entry.meta <==> key in own))
            && (key in own && key != "embedding_model" ==> entry.meta[key] == own[key])
            && (model == "" ==> entry.meta == own)
            && (model != "" ==> "embedding_model" in entry.meta && entry.meta["embedding_model"] == Str(model))
  {
  }

  /** With chunks to embed the job succeeds exactly when the document is there and the
      provider answers one vector per chunk; otherwise no row and no vector changes. */
  lemma EmbeddingFailsIff(db: Db, doc: Id, provider: Provider, model: string)
    requires Todo(db, doc) != []
    ensures var (after, outcome) := EmbedDocument(db, doc, provider, model);
            var answer := provider(Texts(db, Todo(db, doc)));
            && (outcome == Succeeded <==> doc in db.docs && answer.Ok? && |answer.value| == |Todo(db, doc)|)
            && (!(answer.Ok? && |answer.value| == |Todo(db, doc)|) ==>
                after.chunks == db.chunks && after.vectors == db.vectors && (doc in db.docs ==> after.docs[doc].status == FailedDoc))
            && (outcome == Succeeded ==> after.docs[doc].status == Ready)
  {
    AnswerFailsIff(db, doc, Todo(db, doc), provider(Texts(db, Todo(db, doc))), model);
  }

  lemma AnswerFailsIff(db: Db, doc: Id, todo: seq<Id>, answer: Result<seq<Vector>>, model: string)
    requires forall c | c in todo :: c in db.chunks
    ensures var (after, outcome) := EmbedAnswer(db, doc, todo, answer, model);
            && (outcome == Succeeded <==> doc in db.docs && answer.Ok? && |answer.value| == |todo|)
            && (!(answer.Ok? && |answer.value| == |todo|) ==>
                && after.chunks == db.chunks && after.vectors == db.vectors
                && (doc in db.docs ==> doc in after.docs && after.docs[doc].status == FailedDoc))
            && (outcome == Succeeded ==> after.docs[doc].status == Ready)
  {
  }
}

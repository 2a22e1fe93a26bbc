/** The stores and the request handlers that write them, statement by statement, over
    tables that are updated in place. Each handler is tied to the statement sequence of
    `Calls` or to the request functions of `Serial` and `Embeddings`. */
module Store {
  import opened Ordering
  import opened Tables
  import opened Calls
  import opened Effects
  import opened Embeddings
  import opened Serial

  function SourcesAmong(links: map<Id, Link>, ids: set<Id>): set<Id> {
    set l | l in links && links[l].source in ids
  }

  function TargetsAmong(links: map<Id, Link>, ids: set<Id>): set<Id> {
    set l | l in links && links[l].target in ids
  }

  /** The rows of `links` a TransferLinks call renames an endpoint of, one per endpoint. */
  function Endpoints(links: map<Id, Link>, id: Id): nat {
    |SourcesAmong(links, {id})| + |TargetsAmong(links, {id})|
  }

  class Database {
    var docs: map<Id, Doc>
    var chunks: map<Id, Chunk>
    var links: map<Id, Link>
    var records: map<Id, Record>
    var vectors: map<Id, Entry>
    var jobs: seq<Job>
    var next: Id
    var now: int

    function State(): Db
      reads this
    {
      Db(docs, chunks, links, records, vectors, jobs, next, now)
    }

    constructor (docs: map<Id, Doc>)
      ensures State() == Db(docs, map[], map[], map[], map[], [], 0, 0)
    {
      this.docs := docs;
      chunks, links, records, vectors := map[], map[], map[], map[];
      jobs, next, now := [], 0, 0;
    }

    // ----- single statements -------------------------------------------------------

    method CreateChunk(doc: Id, content: Text, sequence: int, meta: Meta) returns (id: Id)
      modifies this
      ensures id == old(next) && State() == InsertChunk(old(State()), doc, content, sequence, meta)
    {
      id := next;
      chunks := chunks[id := Chunk(doc, sequence, content, None, Active, None, meta)];
      next := next + 1;
    }

    method SetEmbeddingID(id: Id, embedding: Id)
      modifies this
      ensures State() == SetEmbeddingId(old(State()), id, embedding)
    {
      if id in chunks {
        chunks := chunks[id := chunks[id].(embeddingId := Some(embedding))];
      }
    }

    method StoreEntry(id: Id, entry: Entry)
      modifies this
      ensures State() == StoreVector(old(State()), id, entry)
    {
      vectors := vectors[id := entry];
    }

    method DeleteEntries(ids: set<Id>)
      modifies this
      ensures State() == DeleteVectors(old(State()), ids)
    {
      vectors := vectors - ids;
    }

    method CreateJob(doc: Option<Id>, kind: JobKind)
      modifies this
      ensures State() == InsertJob(old(State()), doc, kind)
    {
      jobs := jobs + [Job(doc, kind, Queued, now)];
    }

    /** DocumentStore.UpdateStatus. */
    method UpdateDocStatus(doc: Id, status: DocStatus) returns (r: Result<()>)
      modifies this
      ensures match SetDocStatus(old(State()), doc, status)
              case Ok(db) => r == Ok(()) && State() == db
              case Err(e) => r == Err(e) && State() == old(State())
    {
      if doc !in docs {
        return Err(NotFound);
      }
      docs := docs[doc := docs[doc].(status := status)];
      r := Ok(());
    }

    method Conclude(doc: Id, status: DocStatus, result: JobOutcome) returns (outcome: JobOutcome)
      modifies this
      ensures (State(), outcome) == Embeddings.Conclude(old(State()), doc, status, result)
    {
      var updated := UpdateDocStatus(doc, status);
      outcome := if updated.Ok? then result else FailedWith(updated.error);
    }

    method MarkCompactedRows(ids: seq<Id>, summary: Id) returns (r: Result<()>)
      modifies this
      ensures match MarkCompacted(old(State()), ids, summary)
              case Ok(db) => r == Ok(()) && State() == db
              case Err(e) => r == Err(e) && State() == old(State())
    {
      var hit := ActiveAmong(State(), ids);
      if hit == {} {
        return Err(NoActiveChunks);
      }
      if summary !in chunks {
        return Err(ForeignKey);
      }
      chunks := map c | c in chunks :: if c in hit then CompactedInto(chunks[c], summary) else chunks[c];
      r := Ok(());
    }

    method RestoreCompactedRows(summary: Id) returns (restored: set<Id>)
      modifies this
      ensures restored == Children(old(State()), summary) && State() == RestoreCompacted(old(State()), summary)
    {
      restored := Children(State(), summary);
      chunks := map c | c in chunks ::
        if chunks[c].compactedBy == Some(summary) then chunks[c].(status := Active, compactedBy := None) else chunks[c];
    }

    method DeleteRow(id: Id) returns (r: Result<()>)
      modifies this
      ensures match DeleteChunkRow(old(State()), id)
              case Ok(db) => r == Ok(()) && State() == db
              case Err(e) => r == Err(e) && State() == old(State())
    {
      if id !in chunks {
        return Err(NotFound);
      }
      var pointing := Children(State(), id);
      if pointing != {} && pointing != {id} {
        return Err(ForeignKey);
      }
      chunks := chunks - {id};
      links := map l | l in links && links[l].source != id && links[l].target != id :: links[l];
      records := map r | r in records && records[r].summary != id :: records[r];
      r := Ok(());
    }

    method CreateRecord(record: Record) returns (r: Result<()>)
      modifies this
      ensures match InsertRecord(old(State()), record)
              case Ok(db) => r == Ok(()) && State() == db
              case Err(e) => r == Err(e) && State() == old(State())
    {
      if record.summary !in chunks {
        return Err(ForeignKey);
      }
      records := records[next := record];
      next := next + 1;
      r := Ok(());
    }

    method DeleteRecordRow(record: Id) returns (r: Result<()>)
      modifies this
      ensures match DeleteRecord(old(State()), record)
              case Ok(db) => r == Ok(()) && State() == db
              case Err(e) => r == Err(e) && State() == old(State())
    {
      if record !in records {
        return Err(RecordGone);
      }
      records := records - {record};
      r := Ok(());
    }

    /** The links that start at `from` start at `to`; the result is how many there were. */
    method UpdateSources(from: Id, to: Id) returns (r: Result<nat>)
      modifies this
      ensures match MoveSources(old(State()), from, to)
              case Ok(db) => r == Ok(|SourcesAmong(old(links), {from})|) && State() == db
              case Err(e) => r == Err(e) && State() == old(State())
    {
      var hit := SourcesAmong(links, {from});
      if to !in chunks && exists l :: l in links && links[l].source == from {
        return Err(ForeignKey);
      }
      links := map l | l in links :: if links[l].source == from then links[l].(source := to) else links[l];
      r := Ok(|hit|);
    }

    method UpdateTargets(from: Id, to: Id) returns (r: Result<nat>)
      modifies this
      ensures match MoveTargets(old(State()), from, to)
              case Ok(db) => r == Ok(|TargetsAmong(old(links), {from})|) && State() == db
              case Err(e) => r == Err(e) && State() == old(State())
    {
      var hit := TargetsAmong(links, {from});
      if to !in chunks && exists l :: l in links && links[l].target == from {
        return Err(ForeignKey);
      }
      links := map l | l in links :: if links[l].target == from then links[l].(target := to) else links[l];
      r := Ok(|hit|);
    }

    /** Two UPDATEs, one per endpoint; the total is the number of endpoints renamed. */
    method TransferLinks(from: Id, to: Id) returns (r: Result<nat>)
      modifies this
      ensures r == if to in chunks || Endpoints(old(links), from) == 0 then Ok(Endpoints(old(links), from)) else Err(ForeignKey)
      ensures State() == if to in chunks then old(State()).(links := Substituted(old(links), {from}, to)) else old(State())
    {
      ghost var before := State();
      NoEndpoints(links, from);
      TransferIsTwoMoves(before, from, to);
      var first := UpdateSources(from, to);
      if first.Err? {
        return first;
      }
      assert TargetsAmong(links, {from}) == TargetsAmong(before.links, {from});
      var second := UpdateTargets(from, to);
      if second.Err? {
        return second;
      }
      r := Ok(first.value + second.value);
    }

    // ----- compaction ----------------------------------------------------------------

    method WriteSummary(p: Plan) returns (s: Id)
      modifies this
      ensures Finish(old(State()), Numbering(p)) == Finish(State(), MovingSource(p, s, 0))
    {
      ghost var goal := Finish(State(), Numbering(p));
      var sequence := NextSequence(State(), p.doc);
      assert goal == Finish(State(), Creating(p, sequence));
      s := CreateChunk(p.doc, p.content, sequence, p.meta);
      assert goal == Finish(State(), Storing(p, s));
      if p.entry.Some? {
        StoreEntry(s, p.entry.value);
        assert goal == Finish(State(), Tagging(p, s));
        SetEmbeddingID(s, s);
      } else if p.enqueue {
        CreateJob(Some(p.doc), Embedding);
      }
    }

    method MoveLinks(p: Plan, s: Id) returns (r: Result<()>)
      modifies this
      ensures Finish(old(State()), MovingSource(p, s, 0)) ==
              if r.Ok? then Finish(State(), Dropping(p, s)) else (State(), Refused(r.error))
    {
      for k := 0 to |p.sources|
        invariant Finish(old(State()), MovingSource(p, s, 0)) == Finish(State(), MovingSource(p, s, k))
      {
        MoveBoth(State(), p, s, k);
        var moved := TransferLinks(p.sources[k], s);
        if moved.Err? {
          return Err(moved.error);
        }
      }
      r := Ok(());
    }

    method WriteRecord(p: Plan, s: Id) returns (outcome: Outcome)
      modifies this
      ensures (State(), outcome) == Finish(old(State()), Recording(p, s))
    {
      ghost var before := State();
      var recorded := CreateRecord(Record(s, p.sources, p.doc, p.createdBy));
      if recorded.Err? {
        assert Finish(before, Recording(p, s)) == (before, Refused(recorded.error));
        return Refused(recorded.error);
      }
      assert Finish(before, Recording(p, s)) == Finish(State(), Reading(p, s));
      outcome := if s in chunks then Summarised(s) else Refused(NotFound);
      assert Finish(State(), Reading(p, s)) == (State(), outcome);
    }

    method Seal(p: Plan, s: Id) returns (outcome: Outcome)
      modifies this
      ensures (State(), outcome) == Finish(old(State()), Marking(p, s))
    {
      FinishMarking(State(), p, s);
      var marked := MarkCompactedRows(p.sources, s);
      if marked.Err? {
        return Refused(marked.error);
      }
      outcome := WriteRecord(p, s);
    }

    /** The part Compact and CompactionWorker.Process share, from the sequence number to
        the record. */
    method RunCompaction(p: Plan) returns (outcome: Outcome)
      modifies this
      ensures (State(), outcome) == Finish(old(State()), Numbering(p))
    {
      var s := WriteSummary(p);
      var moved := MoveLinks(p, s);
      if moved.Err? {
        return Refused(moved.error);
      }
      assert Finish(old(State()), Numbering(p)) == Finish(State(), Dropping(p, s));
      DeleteEntries(Elements(p.sources));
      assert Finish(old(State()), Numbering(p)) == Finish(State(), Marking(p, s));
      outcome := Seal(p, s);
    }

    /** CompactionServer.Compact. */
    method Compact(allowed: bool, doc: Id, ids: seq<Id>, content: Text, embedding: Vector, meta: Meta, hasQueue: bool, who: string)
      returns (outcome: Outcome)
      modifies this
      ensures (State(), outcome) == Finish(old(State()), CompactCall(old(State()), allowed, doc, ids, content, embedding, meta, hasQueue, who))
    {
      if ids == [] || content == [] {
        return Refused(Invalid);
      }
      if doc !in docs {
        return Refused(NotFound);
      }
      if !allowed {
        return Refused(Denied);
      }
      var counted := meta["compaction_source_count" := Num(|ids|)];
      var entry := if embedding == [] then None else Some(Entry(embedding, counted));
      outcome := RunCompaction(Plan(doc, ids, content, counted, entry, hasQueue, who));
    }

    method DropSummary(summary: Id, record: Id, doc: Id, back: set<Id>) returns (outcome: Outcome)
      modifies this
      ensures (State(), outcome) == Finish(old(State()), Unstoring(summary, record, doc, back))
    {
      ghost var goal := Finish(State(), Unstoring(summary, record, doc, back));
      DeleteEntries({summary});
      assert goal == Finish(State(), Unrecording(summary, record, doc, back));
      ghost var before := State();
      var unrecorded := DeleteRecordRow(record);
      if unrecorded.Err? {
        assert Finish(before, Unrecording(summary, record, doc, back)) == (before, Refused(unrecorded.error));
        return Refused(unrecorded.error);
      }
      assert goal == Finish(State(), Deleting(summary, doc, back));
      FinishDeleting(State(), summary, doc, back);
      var deleted := DeleteRow(summary);
      if deleted.Err? {
        return Refused(deleted.error);
      }
      CreateJob(Some(doc), Embedding);
      outcome := Restored(back);
    }

    /** CompactionServer.Uncompact. */
    method Uncompact(summary: Id, allowed: bool) returns (outcome: Outcome)
      modifies this
      ensures (State(), outcome) == Finish(old(State()), UncompactCall(summary, allowed))
    {
      FinishLooking(State(), summary, allowed);
      var found := RecordFor(State(), summary);
      if found.None? {
        return Refused(NotFound);
      }
      if !allowed {
        return Refused(Denied);
      }
      var r, doc := found.value, records[found.value].doc;
      FinishRestoring(State(), summary, r, doc);
      var back := RestoreCompactedRows(summary);
      outcome := DropSummary(summary, r, doc, back);
    }
  }

  lemma TransferIsTwoMoves(db: Db, from: Id, to: Id)
    ensures to in db.chunks ==> MoveSources(db, from, to).Ok?
    ensures to in db.chunks ==>
      MoveTargets(MoveSources(db, from, to).value, from, to) == Ok(db.(links := Substituted(db.links, {from}, to)))
    ensures to !in db.chunks && MoveSources(db, from, to).Ok? ==> MoveSources(db, from, to) == Ok(db)
    ensures to !in db.chunks && MoveTargets(db, from, to).Ok? ==> MoveTargets(db, from, to) == Ok(db)
  {
    if to in db.chunks {
      TransferSubstitutes(db, from, to);
    } else {
      NothingToMove(db, from, to);
    }
  }

  lemma MovesOntoLive(db: Db, p: Plan, s: Id, k: nat)
    requires k < |p.sources| && s in db.chunks
    ensures Finish(db, MovingSource(p, s, k))
         == Finish(db.(links := Substituted(db.links, {p.sources[k]}, s)), MovingSource(p, s, k + 1))
  {
    TransferSubstitutes(db, p.sources[k], s);
    var half := MoveSources(db, p.sources[k], s).value;
    assert Finish(db, MovingSource(p, s, k)) == Finish(half, MovingTarget(p, s, k));
    var moved := MoveTargets(half, p.sources[k], s).value;
    assert Finish(half, MovingTarget(p, s, k)) == Finish(moved, MovingSource(p, s, k + 1));
  }

  lemma NothingToMove(db: Db, from: Id, to: Id)
    requires to !in db.chunks
    ensures MoveSources(db, from, to) == if (exists l :: l in db.links && db.links[l].source == from) then Err(ForeignKey) else Ok(db)
    ensures MoveTargets(db, from, to) == if (exists l :: l in db.links && db.links[l].target == from) then Err(ForeignKey) else Ok(db)
  {
    if MoveSources(db, from, to).Ok? {
      assert MoveSources(db, from, to).value.links == db.links;
    }
    if MoveTargets(db, from, to).Ok? {
      assert MoveTargets(db, from, to).value.links == db.links;
    }
  }

  lemma NoEndpoints(links: map<Id, Link>, id: Id)
    ensures Endpoints(links, id) == 0 <==> forall l | l in links :: links[l].source != id && links[l].target != id
  {
    var sources, targets := SourcesAmong(links, {id}), TargetsAmong(links, {id});
    if Endpoints(links, id) == 0 {
      assert sources == {} && targets == {};
      assert forall l | l in links :: l !in sources && l !in targets;
    } else {
      assert sources != {} || targets != {};
    }
  }

  lemma MovesOntoMissing(db: Db, p: Plan, s: Id, k: nat)
    requires k < |p.sources| && s !in db.chunks
    ensures Finish(db, MovingSource(p, s, k)) ==
            if Endpoints(db.links, p.sources[k]) == 0 then Finish(db, MovingSource(p, s, k + 1)) else (db, Refused(ForeignKey))
  {
    var from := p.sources[k];
    NoEndpoints(db.links, from);
    NothingToMove(db, from, s);
    if MoveSources(db, from, s).Ok? {
      assert Finish(db, MovingSource(p, s, k)) == Finish(db, MovingTarget(p, s, k));
      if MoveTargets(db, from, s).Ok? {
        assert Finish(db, MovingTarget(p, s, k)) == Finish(db, MovingSource(p, s, k + 1));
      } else {
        assert Finish(db, MovingTarget(p, s, k)) == (db, Refused(ForeignKey));
      }
    }
  }

  /** One turn of the TransferLinks loop is two statements of the call. */
  lemma MoveBoth(db: Db, p: Plan, s: Id, k: nat)
    requires k < |p.sources|
    ensures var from := p.sources[k];
            Finish(db, MovingSource(p, s, k)) ==
            if s in db.chunks then Finish(db.(links := Substituted(db.links, {from}, s)), MovingSource(p, s, k + 1))
            else if Endpoints(db.links, from) == 0 then Finish(db, MovingSource(p, s, k + 1))
            else (db, Refused(ForeignKey))
  {
    if s in db.chunks {
      MovesOntoLive(db, p, s, k);
    } else {
      MovesOntoMissing(db, p, s, k);
    }
  }
}

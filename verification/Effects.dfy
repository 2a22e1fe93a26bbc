/** What a whole compaction and a whole uncompaction do to the tables when nothing
    runs in between: the statement sequences of `Calls` in closed form. */
module Effects {
  import opened Tables
  import opened Calls
  import opened Interleaving

  // ----- links -------------------------------------------------------------------

  function Renamed(link: Link, from: set<Id>, to: Id): Link {
    link.(source := if link.source in from then to else link.source,
          target := if link.target in from then to else link.target)
  }

  /** One simultaneous substitution of `to` for every id of `from`. */
  function Substituted(links: map<Id, Link>, from: set<Id>, to: Id): map<Id, Link> {
    map l | l in links :: Renamed(links[l], from, to)
  }

  predicate Touches(link: Link, ids: set<Id>) {
    link.source in ids || link.target in ids
  }

  lemma TransferSubstitutes(db: Db, from: Id, to: Id)
    requires to in db.chunks
    ensures MoveSources(db, from, to).Ok?
    ensures var db' := MoveSources(db, from, to).value;
            MoveTargets(db', from, to) == Ok(db.(links := Substituted(db.links, {from}, to)))
  {
    var db' := MoveSources(db, from, to).value;
    var db'' := MoveTargets(db', from, to).value;
    assert db''.links == Substituted(db.links, {from}, to);
  }

  lemma SubstitutionsCompose(links: map<Id, Link>, a: Id, rest: seq<Id>, to: Id)
    requires to != a && to !in rest
    ensures Substituted(Substituted(links, {a}, to), Elements(rest), to) == Substituted(links, Elements([a] + rest), to)
  {
    assert forall x :: x in Elements([a] + rest) <==> x == a || x in rest;
  }

  /** The loop of TransferLinks calls is one simultaneous substitution, whatever the
      order of the sources and however often one is named. */
  lemma {:induction false} TransferLoop(db: Db, p: Plan, s: Id, k: nat)
    requires k <= |p.sources| && s in db.chunks && s !in p.sources
    ensures Finish(db, MovingSource(p, s, k))
         == Finish(db.(links := Substituted(db.links, Elements(p.sources[k..]), s)), Dropping(p, s))
    decreases |p.sources| - k
  {
    if k == |p.sources| {
      assert Substituted(db.links, Elements(p.sources[k..]), s) == db.links;
    } else {
      var from := p.sources[k];
      var moved := db.(links := Substituted(db.links, {from}, s));
      TransferSubstitutes(db, from, s);
      assert Finish(db, MovingSource(p, s, k)) == Finish(moved, MovingSource(p, s, k + 1));
      TransferLoop(moved, p, s, k + 1);
      SubstitutionsCompose(db.links, from, p.sources[k + 1..], s);
      assert [from] + p.sources[k + 1..] == p.sources[k..];
    }
  }

  // ----- compaction --------------------------------------------------------------

  function SummaryChunk(db: Db, p: Plan): Chunk {
    Chunk(p.doc, NextSequence(db, p.doc), p.content, if p.entry.Some? then Some(db.next) else None, Active, None, p.meta)
  }

  function VectorsAfter(db: Db, p: Plan): map<Id, Entry> {
    (if p.entry.Some? then db.vectors[db.next := p.entry.value] else db.vectors) - Elements(p.sources)
  }

  function ChunksAfter(db: Db, p: Plan): map<Id, Chunk> {
    (map c | c in db.chunks ::
       if c in ActiveAmong(db, p.sources) then CompactedInto(db.chunks[c], db.next) else db.chunks[c])
    [db.next := SummaryChunk(db, p)]
  }

  /** The tables once the sources' vectors are gone and the rows are not yet marked. */
  function Prepared(db: Db, p: Plan): Db {
    db.(chunks := db.chunks[db.next := SummaryChunk(db, p)],
        links := Substituted(db.links, Elements(p.sources), db.next),
        vectors := VectorsAfter(db, p),
        jobs := if p.entry.None? && p.enqueue then db.jobs + [Job(Some(p.doc), Embedding, Queued, db.now)] else db.jobs,
        next := db.next + 1)
  }

  function CompactedDb(db: Db, p: Plan): (Db, Outcome) {
    if ActiveAmong(db, p.sources) == {} then (Prepared(db, p), Refused(NoActiveChunks))
    else
      (Prepared(db, p).(chunks := ChunksAfter(db, p),
                        records := db.records[db.next + 1 := Record(db.next, p.sources, p.doc, p.createdBy)],
                        next := db.next + 2),
       Summarised(db.next))
  }

  /** The summary row is there, with its vector or the job that will compute one. */
  function Inserted(db: Db, p: Plan): Db {
    db.(chunks := db.chunks[db.next := SummaryChunk(db, p)],
        vectors := if p.entry.Some? then db.vectors[db.next := p.entry.value] else db.vectors,
        jobs := if p.entry.None? && p.enqueue then db.jobs + [Job(Some(p.doc), Embedding, Queued, db.now)] else db.jobs,
        next := db.next + 1)
  }

  lemma FinishInserting(db: Db, p: Plan)
    ensures Finish(db, Numbering(p)) == Finish(Inserted(db, p), MovingSource(p, db.next, 0))
  {
    var s := db.next;
    var n := NextSequence(db, p.doc);
    var inserted := InsertChunk(db, p.doc, p.content, n, p.meta);
    assert Finish(db, Numbering(p)) == Finish(db, Creating(p, n)) == Finish(inserted, Storing(p, s));
    if p.entry.Some? {
      var stored := StoreVector(inserted, s, p.entry.value);
      assert Finish(inserted, Storing(p, s)) == Finish(stored, Tagging(p, s));
      assert SetEmbeddingId(stored, s, s) == Inserted(db, p);
    }
  }

  lemma SummaryIsInserted(db: Db, p: Plan)
    requires db.next !in p.sources && db.next !in db.chunks
    ensures Finish(db, Numbering(p)) == Finish(Prepared(db, p), Marking(p, db.next))
  {
    var s, inserted := db.next, Inserted(db, p);
    FinishInserting(db, p);
    TransferLoop(inserted, p, s, 0);
    assert p.sources[0..] == p.sources;
    var moved := inserted.(links := Substituted(db.links, Elements(p.sources), s));
    assert Finish(moved, Dropping(p, s)) == Finish(DeleteVectors(moved, Elements(p.sources)), Marking(p, s));
    assert DeleteVectors(moved, Elements(p.sources)) == Prepared(db, p);
  }

  lemma MarkingPrepared(db: Db, p: Plan)
    requires db.next !in p.sources && db.next !in db.chunks
    ensures MarkCompacted(Prepared(db, p), p.sources, db.next) ==
            if ActiveAmong(db, p.sources) == {} then Err(NoActiveChunks)
            else Ok(Prepared(db, p).(chunks := ChunksAfter(db, p)))
  {
    var ready := Prepared(db, p);
    assert ActiveAmong(ready, p.sources) == ActiveAmong(db, p.sources);
    if ActiveAmong(db, p.sources) != {} {
      assert MarkCompacted(ready, p.sources, db.next).value.chunks == ChunksAfter(db, p);
    }
  }

  lemma FinishMarking(db: Db, p: Plan, s: Id)
    ensures Finish(db, Marking(p, s)) ==
            var marked := MarkCompacted(db, p.sources, s);
            if marked.Err? then (db, Refused(marked.error)) else Finish(marked.value, Recording(p, s))
  {
  }

  lemma FinishRecording(db: Db, p: Plan, s: Id)
    requires s in db.chunks
    ensures Finish(db, Recording(p, s)) ==
            (db.(records := db.records[db.next := Record(s, p.sources, p.doc, p.createdBy)], next := db.next + 1), Summarised(s))
  {
    var recorded := InsertRecord(db, Record(s, p.sources, p.doc, p.createdBy)).value;
    assert Finish(db, Recording(p, s)) == Finish(recorded, Reading(p, s));
  }

  /** A compaction run on its own. It succeeds exactly when one of the listed ids is an
      active chunk; refused, it leaves the summary, the moved links and no record. */
  lemma FinishCompaction(db: Db, p: Plan)
    requires db.next !in p.sources && db.next !in db.chunks
    ensures Finish(db, Numbering(p)) == CompactedDb(db, p)
  {
    SummaryIsInserted(db, p);
    FinishMarking(Prepared(db, p), p, db.next);
    MarkingPrepared(db, p);
    if ActiveAmong(db, p.sources) != {} {
      FinishRecording(Prepared(db, p).(chunks := ChunksAfter(db, p)), p, db.next);
    }
  }

  // ----- uncompaction ------------------------------------------------------------

  function Revived(chunk: Chunk, summary: Id): Chunk {
    if chunk.compactedBy == Some(summary) then chunk.(status := Active, compactedBy := None) else chunk
  }

  function UncompactedDb(db: Db, s: Id, doc: Id): Db {
    db.(chunks := (map c | c in db.chunks :: Revived(db.chunks[c], s)) - {s},
        vectors := db.vectors - {s},
        links := map l | l in db.links && !Touches(db.links[l], {s}) :: db.links[l],
        records := map r | r in db.records && db.records[r].summary != s :: db.records[r],
        jobs := db.jobs + [Job(Some(doc), Embedding, Queued, db.now)])
  }

  lemma FinishUnstoring(db: Db, s: Id, r: Id, doc: Id, back: set<Id>)
    requires r in db.records
    ensures Finish(db, Unstoring(s, r, doc, back)) ==
            Finish(db.(vectors := db.vectors - {s}, records := db.records - {r}), Deleting(s, doc, back))
  {
    var unstored := DeleteVectors(db, {s});
    assert Finish(db, Unstoring(s, r, doc, back)) == Finish(unstored, Unrecording(s, r, doc, back));
  }

  lemma FinishDeleting(db: Db, s: Id, doc: Id, back: set<Id>)
    ensures Finish(db, Deleting(s, doc, back)) ==
            var deleted := DeleteChunkRow(db, s);
            if deleted.Err? then (db, Refused(deleted.error))
            else (InsertJob(deleted.value, Some(doc), Embedding), Restored(back))
  {
    var deleted := DeleteChunkRow(db, s);
    if deleted.Ok? {
      assert Finish(db, Deleting(s, doc, back)) == Finish(deleted.value, Enqueuing(doc, back));
      var queued := InsertJob(deleted.value, Some(doc), Embedding);
      assert Finish(deleted.value, Enqueuing(doc, back)) == Finish(queued, Done(Restored(back)));
    }
  }

  /** Once the children are revived, nothing refuses the deletion. */
  lemma DeletingChildless(db: Db, s: Id, r: Id, doc: Id)
    requires s in db.chunks && Children(db, s) == {} && r in db.records && db.records[r].summary == s
    ensures var unrecorded := db.(vectors := db.vectors - {s}, records := db.records - {r});
            DeleteChunkRow(unrecorded, s).Ok? &&
            InsertJob(DeleteChunkRow(unrecorded, s).value, Some(doc), Embedding) == UncompactedDb(db, s, doc)
  {
    var unrecorded := db.(vectors := db.vectors - {s}, records := db.records - {r});
    assert Children(unrecorded, s) == {};
    var deleted, after := DeleteChunkRow(unrecorded, s).value, UncompactedDb(db, s, doc);
    assert forall c | c in db.chunks :: c !in Children(db, s);
    assert deleted.chunks == after.chunks;
    assert deleted.links == after.links;
    assert deleted.records == after.records;
  }

  lemma RevivingTwiceIsOnce(db: Db, s: Id, doc: Id)
    ensures UncompactedDb(RestoreCompacted(db, s), s, doc) == UncompactedDb(db, s, doc)
  {
    assert UncompactedDb(RestoreCompacted(db, s), s, doc).chunks == UncompactedDb(db, s, doc).chunks;
  }

  function UncompactEffect(db: Db, s: Id, allowed: bool): (Db, Outcome) {
    match RecordFor(db, s)
    case None => (db, Refused(NotFound))
    case Some(r) =>
      if allowed then (UncompactedDb(db, s, db.records[r].doc), Restored(Children(db, s))) else (db, Refused(Denied))
  }

  lemma FinishLooking(db: Db, s: Id, allowed: bool)
    ensures Finish(db, UncompactCall(s, allowed)) ==
            var r := RecordFor(db, s);
            if r.None? then (db, Refused(NotFound))
            else if allowed then Finish(db, Restoring(s, r.value, db.records[r.value].doc))
            else (db, Refused(Denied))
  {
  }

  lemma FinishRestoring(db: Db, s: Id, r: Id, doc: Id)
    ensures Finish(db, Restoring(s, r, doc)) == Finish(RestoreCompacted(db, s), Unstoring(s, r, doc, Children(db, s)))
  {
  }

  lemma FinishAllowed(db: Db, s: Id, r: Id)
    requires s in db.chunks && r in db.records && db.records[r].summary == s
    ensures Finish(db, Restoring(s, r, db.records[r].doc)) == (UncompactedDb(db, s, db.records[r].doc), Restored(Children(db, s)))
  {
    var revived, doc, back := RestoreCompacted(db, s), db.records[r].doc, Children(db, s);
    FinishRestoring(db, s, r, doc);
    FinishUnstoring(revived, s, r, doc, back);
    FinishDeleting(revived.(vectors := revived.vectors - {s}, records := revived.records - {r}), s, doc, back);
    assert Children(revived, s) == {};
    DeletingChildless(revived, s, r, doc);
    RevivingTwiceIsOnce(db, s, doc);
  }

  /** An uncompaction run on its own: the children come back without embeddings, the
      summary goes, and with it every record of it and every link that touches it. */
  lemma FinishUncompaction(db: Db, s: Id, allowed: bool)
    requires s in db.chunks
    ensures Finish(db, UncompactCall(s, allowed)) == UncompactEffect(db, s, allowed)
  {
    FinishLooking(db, s, allowed);
    if RecordFor(db, s).Some? && allowed {
      FinishAllowed(db, s, RecordFor(db, s).value);
    }
  }
}

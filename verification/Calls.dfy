/** The compaction requests as sequences of statements. A request in flight is a
    `Call`: the point it has reached and what it has read so far. `Advance` issues its
    next statement, `Finish` runs it to the end with nobody else in between. */
module Calls {
  import opened Tables

  /** What a compaction knows before it writes: the source list is fixed here. */
  datatype Plan = Plan(doc: Id, sources: seq<Id>, content: Text, meta: Meta,
                       entry: Option<Entry>, enqueue: bool, createdBy: string)

  datatype Outcome = Summarised(summary: Id) | Restored(ids: set<Id>) | Nothing | Refused(error: Error)

  datatype Call =
    | Numbering(plan: Plan)
    | Creating(plan: Plan, sequence: int)
    | Storing(plan: Plan, summary: Id)
    | Tagging(plan: Plan, summary: Id)
    | MovingSource(plan: Plan, summary: Id, k: nat)
    | MovingTarget(plan: Plan, summary: Id, k: nat)
    | Dropping(plan: Plan, summary: Id)
    | Marking(plan: Plan, summary: Id)
    | Recording(plan: Plan, summary: Id)
    | Reading(plan: Plan, summary: Id)
    | Looking(summary: Id, allowed: bool)
    | Restoring(summary: Id, record: Id, doc: Id)
    | Unstoring(summary: Id, record: Id, doc: Id, restored: set<Id>)
    | Unrecording(summary: Id, record: Id, doc: Id, restored: set<Id>)
    | Deleting(summary: Id, doc: Id, restored: set<Id>)
    | Enqueuing(doc: Id, restored: set<Id>)
    | Done(outcome: Outcome)

  /** Compact(): the checks that come before the first write. `allowed` is the
      authorizer's verdict on the document's topic. */
  function CompactCall(db: Db, allowed: bool, doc: Id, ids: seq<Id>, content: Text, embedding: Vector,
                       meta: Meta, hasQueue: bool, who: string): Call
  {
    if ids == [] || content == [] then Done(Refused(Invalid))
    else if doc !in db.docs then Done(Refused(NotFound))
    else if !allowed then Done(Refused(Denied))
    else
      var counted := meta["compaction_source_count" := Num(|ids|)];
      var entry := if embedding == [] then None else Some(Entry(embedding, counted));
      Numbering(Plan(doc, ids, content, counted, entry, hasQueue, who))
  }

  /** CompactionWorker.Process() once its source chunks are chosen; `embeddings` is the
      embedding provider's answer for the summary. */
  function WorkerCall(doc: Id, sources: seq<Id>, summary: Text, embeddings: seq<Vector>, model: string, who: string): Call {
    if |sources| < 2 then Done(Nothing)
    else if summary == [] then Done(Refused(ProviderFailed))
    else
      var counted: Meta := map["compaction_source_count" := Num(|sources|)];
      var stored := if model == "" then counted else counted["embedding_model" := Str(model)];
      var entry := if embeddings == [] then None else Some(Entry(embeddings[0], stored));
      Numbering(Plan(doc, sources, summary, counted, entry, false, who))
  }

  function UncompactCall(summary: Id, allowed: bool): Call {
    Looking(summary, allowed)
  }

  function Next(db: Db, r: Result<Db>, call: Call): (Db, Call) {
    match r
    case Ok(db') => (db', call)
    case Err(e) => (db, Done(Refused(e)))
  }

  /** The next statement of a call. */
  function Advance(db: Db, call: Call): (Db, Call) {
    match call
    case Numbering(p) => (db, Creating(p, NextSequence(db, p.doc)))
    case Creating(p, n) => (InsertChunk(db, p.doc, p.content, n, p.meta), Storing(p, db.next))
    case Storing(p, s) =>
      (match p.entry
       case Some(e) => (StoreVector(db, s, e), Tagging(p, s))
       case None => (if p.enqueue then InsertJob(db, Some(p.doc), Embedding) else db, MovingSource(p, s, 0)))
    case Tagging(p, s) => (SetEmbeddingId(db, s, s), MovingSource(p, s, 0))
    case MovingSource(p, s, k) =>
      if k < |p.sources| then Next(db, MoveSources(db, p.sources[k], s), MovingTarget(p, s, k)) else (db, Dropping(p, s))
    case MovingTarget(p, s, k) =>
      if k < |p.sources| then Next(db, MoveTargets(db, p.sources[k], s), MovingSource(p, s, k + 1)) else (db, Dropping(p, s))
    case Dropping(p, s) => (DeleteVectors(db, Elements(p.sources)), Marking(p, s))
    case Marking(p, s) => Next(db, MarkCompacted(db, p.sources, s), Recording(p, s))
    case Recording(p, s) => Next(db, InsertRecord(db, Record(s, p.sources, p.doc, p.createdBy)), Reading(p, s))
    case Reading(p, s) => (db, Done(if s in db.chunks then Summarised(s) else Refused(NotFound)))
    case Looking(s, allowed) =>
      (match RecordFor(db, s)
       case None => (db, Done(Refused(NotFound)))
       case Some(r) => (db, if allowed then Restoring(s, r, db.records[r].doc) else Done(Refused(Denied))))
    case Restoring(s, r, d) => (RestoreCompacted(db, s), Unstoring(s, r, d, Children(db, s)))
    case Unstoring(s, r, d, back) => (DeleteVectors(db, {s}), Unrecording(s, r, d, back))
    case Unrecording(s, r, d, back) => Next(db, DeleteRecord(db, r), Deleting(s, d, back))
    case Deleting(s, d, back) => Next(db, DeleteChunkRow(db, s), Enqueuing(d, back))
    case Enqueuing(d, back) => (InsertJob(db, Some(d), Embedding), Done(Restored(back)))
    case Done(_) => (db, call)
  }

  /** Statements left at most; every statement uses one up. */
  function Rank(call: Call): nat {
    match call
    case Numbering(p) => 2 * |p.sources| + 10
    case Creating(p, _) => 2 * |p.sources| + 9
    case Storing(p, _) => 2 * |p.sources| + 8
    case Tagging(p, _) => 2 * |p.sources| + 7
    case MovingSource(p, _, k) => if k <= |p.sources| then 2 * (|p.sources| - k) + 6 else 5
    case MovingTarget(p, _, k) => if k < |p.sources| then 2 * (|p.sources| - k) + 5 else 5
    case Dropping(_, _) => 4
    case Marking(_, _) => 3
    case Recording(_, _) => 2
    case Reading(_, _) => 1
    case Looking(_, _) => 6
    case Restoring(_, _, _) => 5
    case Unstoring(_, _, _, _) => 4
    case Unrecording(_, _, _, _) => 3
    case Deleting(_, _, _) => 2
    case Enqueuing(_, _) => 1
    case Done(_) => 0
  }

  /** The call run to its end on its own. */
  function Finish(db: Db, call: Call): (Db, Outcome)
    decreases Rank(call)
  {
    if call.Done? then (db, call.outcome)
    else var (db', call') := Advance(db, call); Finish(db', call')
  }
}

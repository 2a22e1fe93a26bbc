/** Any number of compactions and uncompactions in flight at once, one statement at a
    time in any order, among ingestion, linking, embedding and deletions, and any of
    them may stop for good after any statement. */
module Interleaving {
  import opened Tables
  import opened Calls

  datatype World = World(db: Db, calls: map<nat, Call>)

  datatype Event =
    | BeginCompaction(k: nat, plan: Plan)
    | BeginUncompact(k: nat, summary: Id, allowed: bool)
    | Run(k: nat)
    | Stop(k: nat)
    | Ingest(doc: Id, content: Text, sequence: int, meta: Meta)
    | SetEmbedding(id: Id)
    | Delete(id: Id)
    | CreateLink(link: Link)
    | DeleteLink(id: Id)

  /** A compaction names source chunks that were handed out before it began. */
  predicate Enabled(w: World, e: Event) {
    match e
    case BeginCompaction(k, plan) => k !in w.calls && forall s | s in plan.sources :: s < w.db.next
    case BeginUncompact(k, _, _) => k !in w.calls
    case Run(k) => k in w.calls && !w.calls[k].Done?
    case Stop(k) => k in w.calls
    case CreateLink(l) => l.source in w.db.chunks && l.target in w.db.chunks
    case _ => true
  }

  function Apply(w: World, e: Event): World
    requires Enabled(w, e)
  {
    match e
    case BeginCompaction(k, plan) => w.(calls := w.calls[k := Numbering(plan)])
    case BeginUncompact(k, s, allowed) => w.(calls := w.calls[k := UncompactCall(s, allowed)])
    case Run(k) => var (db, call) := Advance(w.db, w.calls[k]); World(db, w.calls[k := call])
    case Stop(k) => w.(calls := w.calls - {k})
    case Ingest(d, content, n, meta) => w.(db := InsertChunk(w.db, d, content, n, meta))
    case SetEmbedding(id) => w.(db := SetEmbeddingId(w.db, id, id))
    case Delete(id) => (match DeleteChunkRow(w.db, id) case Ok(db) => w.(db := db) case Err(_) => w)
    case CreateLink(l) => w.(db := w.db.(links := w.db.links[w.db.next := l], next := w.db.next + 1))
    case DeleteLink(id) => w.(db := w.db.(links := w.db.links - {id}))
  }

  predicate Legal(w: World, run: seq<Event>)
    decreases |run|
  {
    run == [] || (Enabled(w, run[0]) && Legal(Apply(w, run[0]), run[1..]))
  }

  function Exec(w: World, run: seq<Event>): World
    requires Legal(w, run)
    decreases |run|
  {
    if run == [] then w else Exec(Apply(w, run[0]), run[1..])
  }

  // ----- the forest ------------------------------------------------------------

  /** Every `compacted_by` points at a live chunk created strictly later, and the
      status says `compacted` exactly when `compacted_by` is set. */
  predicate Grounded(db: Db) {
    forall c | c in db.chunks ::
      && c < db.next
      && (db.chunks[c].status.Compacted? <==> db.chunks[c].compactedBy.Some?)
      && (db.chunks[c].compactedBy.Some? ==> c < db.chunks[c].compactedBy.value && db.chunks[c].compactedBy.value in db.chunks)
  }

  predicate SourcesBelow(plan: Plan, bound: Id) {
    forall s | s in plan.sources :: s < bound
  }

  /** The source list of a call was fixed before its summary existed. */
  predicate CallOk(db: Db, call: Call) {
    match call
    case Numbering(p) => SourcesBelow(p, db.next)
    case Creating(p, _) => SourcesBelow(p, db.next)
    case Storing(p, s) => SourcesBelow(p, s) && s < db.next
    case Tagging(p, s) => SourcesBelow(p, s) && s < db.next
    case MovingSource(p, s, _) => SourcesBelow(p, s) && s < db.next
    case MovingTarget(p, s, _) => SourcesBelow(p, s) && s < db.next
    case Dropping(p, s) => SourcesBelow(p, s) && s < db.next
    case Marking(p, s) => SourcesBelow(p, s) && s < db.next
    case Recording(p, s) => s < db.next
    case _ => true
  }

  predicate Forest(w: World) {
    Grounded(w.db) && forall k | k in w.calls :: CallOk(w.db, w.calls[k])
  }

  lemma MarkKeepsGrounded(db: Db, ids: seq<Id>, summary: Id)
    requires Grounded(db) && forall s | s in ids :: s < summary
    ensures var r := MarkCompacted(db, ids, summary); r.Ok? ==> Grounded(r.value) && r.value.next == db.next
  {
  }

  lemma RestoreKeepsGrounded(db: Db, summary: Id)
    requires Grounded(db)
    ensures Grounded(RestoreCompacted(db, summary))
  {
  }

  lemma DeleteKeepsGrounded(db: Db, id: Id)
    requires Grounded(db)
    ensures var r := DeleteChunkRow(db, id); r.Ok? ==> Grounded(r.value) && r.value.next == db.next
  {
    var r := DeleteChunkRow(db, id);
    if r.Ok? {
      forall c | c in r.value.chunks
        ensures r.value.chunks[c].compactedBy != Some(id)
      {
        assert c in Children(db, id) <==> r.value.chunks[c].compactedBy == Some(id);
      }
    }
  }

  predicate WritesChunks(call: Call) {
    call.Creating? || call.Tagging? || call.Marking? || call.Restoring? || call.Deleting?
  }

  lemma OtherStatementsKeepChunks(db: Db, call: Call)
    requires !WritesChunks(call)
    ensures Advance(db, call).0.chunks == db.chunks && db.next <= Advance(db, call).0.next
  {
  }

  lemma AdvanceKeepsCallOk(db: Db, call: Call)
    requires CallOk(db, call)
    ensures CallOk(Advance(db, call).0, Advance(db, call).1)
  {
  }

  lemma AdvanceKeepsGrounded(db: Db, call: Call)
    requires Grounded(db) && CallOk(db, call)
    ensures Grounded(Advance(db, call).0) && db.next <= Advance(db, call).0.next
  {
    match call
    case Creating(_, _) =>
    case Tagging(_, _) =>
    case Marking(p, s) => MarkKeepsGrounded(db, p.sources, s);
    case Restoring(s, _, _) => RestoreKeepsGrounded(db, s);
    case Deleting(s, _, _) => DeleteKeepsGrounded(db, s);
    case _ => OtherStatementsKeepChunks(db, call);
  }

  lemma StepKeepsForest(w: World, e: Event)
    requires Forest(w) && Enabled(w, e)
    ensures Forest(Apply(w, e))
  {
    match e
    case Run(k) =>
      AdvanceKeepsCallOk(w.db, w.calls[k]);
      AdvanceKeepsGrounded(w.db, w.calls[k]);
    case Delete(id) => DeleteKeepsGrounded(w.db, id);
    case _ =>
  }

  /** Whatever interleaves, the parent relation stays grounded. */
  lemma {:induction false} AlwaysForest(w: World, run: seq<Event>)
    requires Forest(w) && Legal(w, run)
    ensures Forest(Exec(w, run))
    decreases |run|
  {
    if run != [] {
      StepKeepsForest(w, run[0]);
      AlwaysForest(Apply(w, run[0]), run[1..]);
    }
  }

  /** The chunk that stands for `c` now: the end of its chain of parents. */
  function Root(db: Db, c: Id): (r: Id)
    requires Grounded(db) && c in db.chunks
    ensures IsActive(db, r) && c <= r
    decreases db.next - c
  {
    if db.chunks[c].compactedBy.Some? then Root(db, db.chunks[c].compactedBy.value) else c
  }

  predicate Chain(db: Db, path: seq<Id>) {
    forall i | 0 <= i < |path| - 1 :: path[i] in db.chunks && db.chunks[path[i]].compactedBy == Some(path[i + 1])
  }

  /** No chunk is its own ancestor. */
  lemma {:induction false} ChainsClimb(db: Db, path: seq<Id>)
    requires Grounded(db) && Chain(db, path) && |path| > 1
    ensures path[0] < path[|path| - 1]
  {
    assert db.chunks[path[0]].compactedBy == Some(path[1]);
    if |path| > 2 {
      ChainsClimb(db, path[1..]);
    }
  }
}

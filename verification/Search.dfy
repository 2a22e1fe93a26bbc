/** Access-filtered similarity search: exactly the backend's ranking of exactly the chunks
    the principal may see. */
module Search {
  import opened Ordering
  import opened Tables
  import opened Authorizer
  import Store

  datatype Hit = Hit(chunk: Id, score: real)

  /** What the caller sends along with the query. */
  datatype Request = Request(topics: seq<Id>, query: Vector, topK: int, metadata: Meta, excluded: seq<Id>)

  datatype Found = Found(chunk: Id, row: Chunk, topic: Id, score: real, document: Doc)

  /** A vector backend, over the entries it holds: an empty id filter is no filter. */
  type Backend = (map<Id, Entry>, Request, seq<Id>) -> Result<seq<Hit>>

  /** A backend honours its filter when, given chunk ids, it answers only with those. */
  ghost predicate HonoursFilter(backend: Backend) {
    forall entries, request, ids | ids != [] && backend(entries, request, ids).Ok? ::
      forall h | h in backend(entries, request, ids).value :: h.chunk in ids
  }

  // ----- which chunks may be seen ----------------------------------------------------------

  /** The chunk is active, its document is not excluded, and the document's topic is
      readable and, if topics were named, among them. */
  predicate Permitted(db: Db, owners: map<Id, string>, grants: seq<Grant>, p: Principal, request: Request, c: Id) {
    && c in db.chunks && db.chunks[c].status.Active?
    && db.chunks[c].doc in db.docs && db.chunks[c].doc !in request.excluded
    && var topic := db.docs[db.chunks[c].doc].topic;
       Allowed(owners, grants, p, topic, "read") && (request.topics == [] || topic in request.topics)
  }

  /** documents.topic_id references topics. */
  predicate DocsHaveTopics(db: Db, owners: map<Id, string>) {
    forall d | d in db.docs :: db.docs[d].topic in owners
  }

  function Among(requested: seq<Id>, accessible: seq<Id>): (r: seq<Id>)
    ensures forall t :: t in r <==> t in requested && t in accessible
  {
    if requested == [] then []
    else
      var n := |requested| - 1;
      assert requested == requested[..n] + [requested[n]];
      Among(requested[..n], accessible) + if requested[n] in accessible then [requested[n]] else []
  }

  function Resolved(owners: map<Id, string>, grants: seq<Grant>, p: Principal, requested: seq<Id>): seq<Id> {
    var accessible := Accessible(owners, grants, p, "read");
    if requested == [] then accessible else Among(requested, accessible)
  }

  /** ChunkIDsByTopics; the order is of no account. */
  function ChunkIdsByTopics(db: Db, topics: seq<Id>, excluded: seq<Id>): (ids: seq<Id>)
    ensures forall c :: c in ids <==>
      (c in db.chunks && db.chunks[c].status.Active? && db.chunks[c].doc in db.docs &&
       db.docs[db.chunks[c].doc].topic in topics && db.chunks[c].doc !in excluded)
  {
    var rows := set c | c in db.chunks && db.chunks[c].status.Active? && db.chunks[c].doc in db.docs &&
                        db.docs[db.chunks[c].doc].topic in topics && db.chunks[c].doc !in excluded;
    SortedBy(rows, map c | c in rows :: c)
  }

  /** The filter sent to the backend is exactly the set of permitted chunks. */
  lemma FilterIsThePermitted(db: Db, owners: map<Id, string>, grants: seq<Grant>, p: Principal, request: Request, c: Id)
    requires DocsHaveTopics(db, owners)
    ensures c in ChunkIdsByTopics(db, Resolved(owners, grants, p, request.topics), request.excluded) <==>
            Permitted(db, owners, grants, p, request, c)
  {
    DecisionsAgree(owners, grants, p, "read");
  }

  // ----- the search -------------------------------------------------------------------------

  predicate Shown(db: Db, h: Hit) {
    h.chunk in db.chunks && db.chunks[h.chunk].doc in db.docs
  }

  function Show(db: Db, h: Hit): Found
    requires Shown(db, h)
  {
    var row := db.chunks[h.chunk];
    Found(h.chunk, row, db.docs[row.doc].topic, h.score, db.docs[row.doc])
  }

  function Assembled(db: Db, hits: seq<Hit>): seq<Found> {
    if hits == [] then []
    else
      var last := hits[|hits| - 1];
      Assembled(db, hits[..|hits| - 1]) + if Shown(db, last) then [Show(db, last)] else []
  }

  function Searched(db: Db, owners: map<Id, string>, grants: seq<Grant>, p: Principal, request: Request, backend: Backend)
    : Result<seq<Found>>
  {
    var ids := ChunkIdsByTopics(db, Resolved(owners, grants, p, request.topics), request.excluded);
    if ids == [] then Ok([])
    else
      match backend(db.vectors, request, ids)
      case Err(e) => Err(e)
      case Ok(hits) => Ok(Assembled(db, hits))
  }

  /** Nothing is dropped and nothing moved when every hit can be shown. */
  lemma {:induction false} NothingIsDropped(db: Db, hits: seq<Hit>)
    requires forall h | h in hits :: Shown(db, h)
    ensures |Assembled(db, hits)| == |hits|
    ensures forall i | 0 <= i < |hits| :: Shown(db, hits[i]) && Assembled(db, hits)[i] == Show(db, hits[i])
  {
    if hits != [] {
      NothingIsDropped(db, hits[..|hits| - 1]);
    }
  }

  /** The results are the backend's ranking of the permitted chunks. */
  ghost predicate IsRanking(db: Db, owners: map<Id, string>, grants: seq<Grant>, p: Principal, request: Request,
                            hits: seq<Hit>, results: seq<Found>) {
    && |results| == |hits|
    && forall i | 0 <= i < |hits| ::
         && Permitted(db, owners, grants, p, request, hits[i].chunk)
         && results[i].chunk == hits[i].chunk && results[i].score == hits[i].score
         && var row := db.chunks[hits[i].chunk];
            results[i].row == row && results[i].document == db.docs[row.doc] && results[i].topic == db.docs[row.doc].topic
  }

  /** These are the permitted chunks, all of them. */
  ghost predicate IsFilter(db: Db, owners: map<Id, string>, grants: seq<Grant>, p: Principal, request: Request, ids: seq<Id>) {
    forall c :: c in ids <==> Permitted(db, owners, grants, p, request, c)
  }

  lemma RankingIsShown(db: Db, owners: map<Id, string>, grants: seq<Grant>, p: Principal, request: Request, ids: seq<Id>, hits: seq<Hit>)
    requires IsFilter(db, owners, grants, p, request, ids) && forall h | h in hits :: h.chunk in ids
    ensures IsRanking(db, owners, grants, p, request, hits, Assembled(db, hits))
  {
    forall h | h in hits
      ensures Permitted(db, owners, grants, p, request, h.chunk)
    {
      assert h.chunk in ids;
    }
    NothingIsDropped(db, hits);
  }

  /** On any tables, even when the index holds entries of compacted or deleted chunks: with
      no permitted chunk the answer is empty and the backend is not asked; otherwise it is
      the backend's own ranking, each result permitted and under its document's topic. */
  lemma SearchIsExact(db: Db, owners: map<Id, string>, grants: seq<Grant>, p: Principal, request: Request, backend: Backend)
    returns (ids: seq<Id>)
    requires DocsHaveTopics(db, owners) && HonoursFilter(backend)
    ensures IsFilter(db, owners, grants, p, request, ids)
    ensures ids == [] ==> Searched(db, owners, grants, p, request, backend) == Ok([])
    ensures ids != [] ==>
      var answer, found := backend(db.vectors, request, ids), Searched(db, owners, grants, p, request, backend);
      if answer.Ok? then found.Ok? && IsRanking(db, owners, grants, p, request, answer.value, found.value)
      else found == Err(answer.error)
  {
    ids := ChunkIdsByTopics(db, Resolved(owners, grants, p, request.topics), request.excluded);
    forall c
      ensures c in ids <==> Permitted(db, owners, grants, p, request, c)
    {
      FilterIsThePermitted(db, owners, grants, p, request, c);
    }
    if ids != [] && backend(db.vectors, request, ids).Ok? {
      RankingIsShown(db, owners, grants, p, request, ids, backend(db.vectors, request, ids).value);
    }
  }

  class Searcher {
    const db: Store.Database
    const authorizer: GrantAuthorizer

    constructor (db: Store.Database, authorizer: GrantAuthorizer)
      ensures this.db == db && this.authorizer == authorizer
    {
      this.db := db;
      this.authorizer := authorizer;
    }

    method ResolveTopics(p: Principal, requested: seq<Id>) returns (topics: seq<Id>)
      ensures topics == Resolved(authorizer.store.owners, authorizer.store.grants, p, requested)
    {
      var allAccessible := authorizer.AccessibleTopics(p, "read");
      if requested == [] {
        return allAccessible;
      }
      var accessibleSet := Elements(allAccessible);
      topics := [];
      for i := 0 to |requested|
        invariant topics == Among(requested[..i], allAccessible)
      {
        assert requested[..i + 1][..i] == requested[..i];
        if requested[i] in accessibleSet {
          topics := topics + [requested[i]];
        }
      }
      assert requested[..|requested|] == requested;
    }

    method Search(p: Principal, request: Request, backend: Backend) returns (r: Result<seq<Found>>)
      ensures r == Searched(db.State(), authorizer.store.owners, authorizer.store.grants, p, request, backend)
    {
      var accessible := ResolveTopics(p, request.topics);
      if accessible == [] {
        assert ChunkIdsByTopics(db.State(), accessible, request.excluded) == [];
        return Ok([]);
      }
      var chunkIds := ChunkIdsByTopics(db.State(), accessible, request.excluded);
      if chunkIds == [] {
        return Ok([]);
      }
      var answer := backend(db.vectors, request, chunkIds);
      if answer.Err? {
        return Err(answer.error);
      }
      var results := Assemble(answer.value);
      r := Ok(results);
    }

    /** The rows and documents of the hits, fetched at once, put together in the hits' order. */
    method Assemble(hits: seq<Hit>) returns (results: seq<Found>)
      ensures results == Assembled(db.State(), hits)
    {
      var chunks := map h | h in hits && h.chunk in db.chunks :: h.chunk := db.chunks[h.chunk];
      var docs := map c | c in chunks && chunks[c].doc in db.docs :: chunks[c].doc := db.docs[chunks[c].doc];
      results := [];
      for i := 0 to |hits|
        invariant results == Assembled(db.State(), hits[..i])
      {
        assert hits[..i + 1][..i] == hits[..i];
        var h := hits[i];
        if h.chunk in chunks && chunks[h.chunk].doc in docs {
          var doc := docs[chunks[h.chunk].doc];
          results := results + [Found(h.chunk, chunks[h.chunk], doc.topic, h.score, doc)];
        }
      }
      assert hits[..|hits|] == hits;
    }
  }
}

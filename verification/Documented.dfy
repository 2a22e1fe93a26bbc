/** Rules of the API documentation that the code does not follow as written, and exactly
    when the two coincide: links onto compacted chunks, and the verdict of Compact. */
module Documented {
  import opened Tables
  import opened Calls
  import opened Interleaving
  import opened Effects
  import opened Embeddings
  import opened Serial
  import opened Store

  // ----- creating a link -----------------------------------------------------------------

  function InsertLink(db: Db, link: Link): Db {
    db.(links := db.links[db.next := link], next := db.next + 1)
  }

  /** LinkServer.CreateLink: both chunks must exist; their status is not looked at. */
  function LinkCreated(db: Db, allowed: bool, link: Link): Result<Db> {
    if link.source !in db.chunks then Err(NotFound)
    else if !allowed then Err(Denied)
    else if link.target !in db.chunks then Err(NotFound)
    else Ok(InsertLink(db, link))
  }

  /** The checks in their order; a link that passes them is the one new row, as it was given. */
  lemma CreateLinkIff(db: Db, allowed: bool, link: Link)
    ensures LinkCreated(db, allowed, link).Ok? <==> link.source in db.chunks && link.target in db.chunks && allowed
    ensures LinkCreated(db, allowed, link) == Err(Denied) <==> link.source in db.chunks && !allowed
    ensures LinkCreated(db, allowed, link).Err? ==> LinkCreated(db, allowed, link).error in {Denied, NotFound}
    ensures LinkCreated(db, allowed, link).Ok? ==>
      LinkCreated(db, allowed, link).value == db.(links := db.links[db.next := link], next := db.next + 1)
  {
  }

  /** The link the documentation describes: an endpoint that was compacted is replaced by
      the chunk that stands for it. */
  function Redirected(db: Db, link: Link): Link
    requires Grounded(db) && link.source in db.chunks && link.target in db.chunks
  {
    link.(source := Root(db, link.source), target := Root(db, link.target))
  }

  predicate JoinsActive(db: Db, link: Link) {
    IsActive(db, link.source) && IsActive(db, link.target)
  }

  /** Every link joins active chunks. */
  predicate LinksActive(db: Db) {
    forall l | l in db.links :: JoinsActive(db, db.links[l])
  }

  predicate LinkIdsTaken(db: Db) {
    forall l | l in db.links :: l < db.next
  }

  /** A created link keeps every link on active chunks exactly when both its endpoints are
      active, which is exactly when the code creates the link that is documented. */
  lemma CreateLinkKeepsActiveIff(db: Db, link: Link)
    requires Grounded(db) && LinkIdsTaken(db) && LinksActive(db) && LinkCreated(db, true, link).Ok?
    ensures LinksActive(LinkCreated(db, true, link).value) <==> JoinsActive(db, link)
    ensures LinkCreated(db, true, link).value == InsertLink(db, Redirected(db, link)) <==> JoinsActive(db, link)
    ensures LinksActive(InsertLink(db, Redirected(db, link)))
  {
    var coded, documented := LinkCreated(db, true, link).value, InsertLink(db, Redirected(db, link));
    assert coded.links[db.next] == link && documented.links[db.next] == Redirected(db, link);
    forall l | l in db.links
      ensures coded.links[l] == db.links[l] && documented.links[l] == db.links[l]
    {
    }
  }

  class LinkServer {
    const db: Database

    constructor (db: Database)
      ensures this.db == db
    {
      this.db := db;
    }

    method Create(allowed: bool, link: Link) returns (r: Result<Id>)
      modifies db
      ensures match LinkCreated(old(db.State()), allowed, link)
              case Ok(after) => r == Ok(old(db.next)) && db.State() == after
              case Err(e) => r == Err(e) && db.State() == old(db.State())
    {
      if link.source !in db.chunks {
        return Err(NotFound);
      }
      if !allowed {
        return Err(Denied);
      }
      if link.target !in db.chunks {
        return Err(NotFound);
      }
      r := Ok(db.next);
      db.links := db.links[db.next := link];
      db.next := db.next + 1;
    }
  }

  // ----- links over whole histories ------------------------------------------------------------

  lemma IngestOneKeepsActive(db: Db, doc: Id, x: Input, c: Id)
    requires Grounded(db) && IsActive(db, c)
    ensures IsActive(IngestOne(db, doc, x), c)
  {
  }

  lemma IngestOneKeepsLinkRows(db: Db, doc: Id, x: Input)
    ensures IngestOne(db, doc, x).links == db.links && db.next <= IngestOne(db, doc, x).next
  {
  }

  lemma {:induction false} IngestKeepsLinks(db: Db, doc: Id, xs: seq<Input>)
    requires LinksActive(db) && Sound(db) && LinkIdsTaken(db)
    ensures LinksActive(IngestAll(db, doc, xs)) && LinkIdsTaken(IngestAll(db, doc, xs))
  {
    if xs != [] {
      var before, x := IngestAll(db, doc, xs[..|xs| - 1]), xs[|xs| - 1];
      IngestKeepsLinks(db, doc, xs[..|xs| - 1]);
      IngestKeepsSound(db, doc, xs[..|xs| - 1]);
      IngestOneKeepsLinkRows(before, doc, x);
      forall l | l in before.links
        ensures JoinsActive(IngestOne(before, doc, x), before.links[l])
      {
        assert JoinsActive(before, before.links[l]);
        IngestOneKeepsActive(before, doc, x, before.links[l].source);
        IngestOneKeepsActive(before, doc, x, before.links[l].target);
      }
    }
  }

  /** Moving the links first is what keeps a compaction from leaving one on a chunk it compacts. */
  lemma CompactKeepsLinks(db: Db, p: Plan)
    requires LinksActive(db) && Grounded(db) && SourcesBelow(p, db.next)
    ensures LinksActive(CompactedDb(db, p).0)
  {
    var after, from := CompactedDb(db, p).0, Elements(p.sources);
    forall l | l in after.links
      ensures JoinsActive(after, after.links[l])
    {
      assert JoinsActive(db, db.links[l]) && after.links[l] == Renamed(db.links[l], from, db.next);
      EndpointStaysActive(db, p, db.links[l].source);
      EndpointStaysActive(db, p, db.links[l].target);
    }
  }

  lemma EndpointStaysActive(db: Db, p: Plan, c: Id)
    requires Grounded(db) && SourcesBelow(p, db.next) && IsActive(db, c)
    ensures IsActive(CompactedDb(db, p).0, if c in Elements(p.sources) then db.next else c)
  {
  }

  lemma UncompactKeepsLinks(db: Db, s: Id, doc: Id)
    requires LinksActive(db)
    ensures LinksActive(UncompactedDb(db, s, doc))
  {
    var after := UncompactedDb(db, s, doc);
    forall l | l in after.links
      ensures JoinsActive(after, after.links[l])
    {
      assert JoinsActive(db, db.links[l]) && !Touches(db.links[l], {s});
    }
  }

  lemma DeleteKeepsLinks(db: Db, id: Id)
    requires LinksActive(db)
    ensures LinksActive(Serial.DeleteChunk(db, id).0)
  {
  }

  /** A request keeps links where they are or moves them onto active chunks. */
  lemma ServeKeepsLinks(db: Db, r: Request)
    requires Sound(db) && LinksActive(db) && LinkIdsTaken(db) && Admissible(db, r)
    ensures LinksActive(Serve(db, r)) && LinkIdsTaken(Serve(db, r))
  {
    match r
    case Ingest(doc, xs) => IngestKeepsLinks(db, doc, xs);
    case Delete(id) => DeleteKeepsLinks(db, id);
    case Compact(p) => FinishCompaction(db, p); CompactKeepsLinks(db, p);
    case Uncompact(s, allowed) => UncompactServedKeepsLinks(db, s, allowed);
    case Embed(doc, provider, model) => EmbedKeepsLinks(db, doc, provider, model);
  }

  lemma UncompactServedKeepsLinks(db: Db, s: Id, allowed: bool)
    requires Sound(db) && LinksActive(db) && LinkIdsTaken(db)
    ensures var after := Finish(db, UncompactCall(s, allowed)).0; LinksActive(after) && LinkIdsTaken(after)
  {
    var found := RecordFor(db, s);
    if found.Some? {
      FinishUncompaction(db, s, allowed);
      UncompactKeepsLinks(db, s, db.records[found.value].doc);
    } else {
      FinishLooking(db, s, allowed);
    }
  }

  lemma AnswerKeepsLinks(db: Db, doc: Id, todo: seq<Id>, answer: Result<seq<Vector>>, model: string)
    requires LinksActive(db) && LinkIdsTaken(db) && forall c | c in todo :: c in db.chunks
    ensures var after := EmbedAnswer(db, doc, todo, answer, model).0; LinksActive(after) && LinkIdsTaken(after)
  {
    var after := EmbedAnswer(db, doc, todo, answer, model).0;
    assert after.links == db.links && after.next == db.next;
    forall l | l in after.links
      ensures JoinsActive(after, after.links[l])
    {
      assert JoinsActive(db, db.links[l]);
    }
  }

  lemma EmbedKeepsLinks(db: Db, doc: Id, provider: Provider, model: string)
    requires LinksActive(db) && LinkIdsTaken(db)
    ensures var after := EmbedDocument(db, doc, provider, model).0; LinksActive(after) && LinkIdsTaken(after)
  {
    var todo := Todo(db, doc);
    if todo != [] {
      AnswerKeepsLinks(db, doc, todo, provider(Texts(db, todo)), model);
    }
  }

  datatype Act = Requested(request: Request) | Linked(link: Link)

  function Done(db: Db, act: Act): Db {
    match act
    case Requested(r) => Serve(db, r)
    case Linked(link) => var made := LinkCreated(db, true, link); if made.Ok? then made.value else db
  }

  predicate AllJoinActive(db: Db, acts: seq<Act>)
    decreases |acts|
  {
    acts == [] ||
    ((acts[0].Requested? ==> Admissible(db, acts[0].request)) && (acts[0].Linked? ==> JoinsActive(db, acts[0].link))
     && AllJoinActive(Done(db, acts[0]), acts[1..]))
  }

  function DoAll(db: Db, acts: seq<Act>): Db
    decreases |acts|
  {
    if acts == [] then db else DoAll(Done(db, acts[0]), acts[1..])
  }

  /** As long as links are created between active chunks, no request of any serial history
      ever leaves a link on a compacted chunk. */
  lemma {:induction false} LinksStayActive(db: Db, acts: seq<Act>)
    requires Sound(db) && LinksActive(db) && LinkIdsTaken(db) && AllJoinActive(db, acts)
    ensures LinksActive(DoAll(db, acts))
    decreases |acts|
  {
    if acts != [] {
      if acts[0].Requested? {
        ServeKeepsSound(db, acts[0].request);
        ServeKeepsLinks(db, acts[0].request);
      } else {
        CreateLinkKeepsActiveIff(db, acts[0].link);
      }
      LinksStayActive(Done(db, acts[0]), acts[1..]);
    }
  }

  // ----- the verdict of Compact ------------------------------------------------------------------

  /** The documentation accepts a list of active chunks of the document, and no other. */
  predicate DocumentedAccepts(db: Db, doc: Id, ids: seq<Id>) {
    forall c | c in ids :: IsActive(db, c) && db.chunks[c].doc == doc
  }

  predicate CodeAccepts(db: Db, p: Plan) {
    Finish(db, Numbering(p)).1.Summarised?
  }

  lemma CodeAcceptsIff(db: Db, p: Plan)
    requires Grounded(db) && SourcesBelow(p, db.next)
    ensures CodeAccepts(db, p) <==> ActiveAmong(db, p.sources) != {}
  {
    FinishCompaction(db, p);
  }

  /** Past the permission check the two verdicts coincide exactly when all listed chunks are
      active and of the document, or none is active. */
  lemma VerdictsCoincideIff(db: Db, p: Plan)
    requires Grounded(db) && SourcesBelow(p, db.next) && p.sources != []
    ensures (CodeAccepts(db, p) <==> DocumentedAccepts(db, p.doc, p.sources)) <==>
            (DocumentedAccepts(db, p.doc, p.sources) || forall c | c in p.sources :: !IsActive(db, c))
  {
    CodeAcceptsIff(db, p);
    var hit := ActiveAmong(db, p.sources);
    assert p.sources[0] in p.sources;
    assert forall c | c in p.sources :: IsActive(db, c) <==> c in hit;
    if hit != {} {
      var c :| c in hit;
      assert IsActive(db, c);
    }
  }

  // ----- what becomes of the links of a compacted chunk ----------------------------------------------

  /** Documented: an outbound link that moves becomes a `compaction_transfer`. The code keeps
      its kind, so the two coincide exactly when every such link was one already. */
  lemma TransferredKindsIff(links: map<Id, Link>, sources: seq<Id>, to: Id)
    ensures var after := Substituted(links, Elements(sources), to);
            (forall l | l in links && links[l].source in sources :: after[l].kind == "compaction_transfer") <==>
            (forall l | l in links && links[l].source in sources :: links[l].kind == "compaction_transfer")
  {
  }

  /** Documented: an inbound link stays where it is and is resolved on traversal. The code
      renames it, so inbound ends stay exactly when there are none, unless on `to` itself. */
  lemma InboundStaysIff(links: map<Id, Link>, sources: seq<Id>, to: Id)
    ensures var after := Substituted(links, Elements(sources), to);
            (forall l | l in links :: after[l].target == links[l].target) <==>
            (forall l | l in links && links[l].target in sources :: links[l].target == to)
  {
    var after := Substituted(links, Elements(sources), to);
    forall l | l in links
      ensures after[l].target == links[l].target <==> (links[l].target in sources ==> links[l].target == to)
    {
    }
  }
}

/** Keyset pagination of the job listing: what a client sees that follows the page tokens
    while the workers go on inserting jobs. */
module Paging {
  import opened Ordering
  import opened Tables
  import Store

  const DEFAULT_PAGE_SIZE := 50

  datatype Scope = ByTopic(topic: Id) | ByDocument(doc: Id)

  /** The jobs of one page and the token of the next; a job is named by its index. */
  datatype Page = Page(jobs: seq<nat>, next: Option<nat>)

  predicate Matches(db: Db, scope: Scope, j: nat) {
    j < |db.jobs| && db.jobs[j].doc.Some? &&
    match scope
    case ByTopic(t) => db.jobs[j].doc.value in db.docs && db.docs[db.jobs[j].doc.value].topic == t
    case ByDocument(d) => db.jobs[j].doc.value == d
  }

  predicate Behind(db: Db, j: nat, token: nat)
    requires j < |db.jobs|
  {
    token < |db.jobs| && j != token && db.jobs[j].created <= db.jobs[token].created
  }

  /** The rows a listing selects. A token that names no job has no timestamp to compare
      with: it selects none. */
  function Rows(db: Db, scope: Scope, status: Option<JobStatus>, token: Option<nat>): set<nat> {
    set j: nat | j < |db.jobs| && Matches(db, scope, j)
               && (status.Some? ==> db.jobs[j].status == status.value)
               && (token.None? || Behind(db, j, token.value))
  }

  /** The key that puts the newest job first. */
  function Newest(db: Db): map<nat, int> {
    map j: nat | j < |db.jobs| :: -db.jobs[j].created
  }

  function Listing(db: Db, scope: Scope, status: Option<JobStatus>, token: Option<nat>): (rows: seq<nat>)
    ensures forall j :: j in rows <==> j in Rows(db, scope, status, token)
    ensures forall i | 0 <= i < |rows| :: rows[i] in Rows(db, scope, status, token)
    ensures forall i, j | 0 <= i < j < |rows| :: rows[i] != rows[j] && Before(Newest(db), rows[i], rows[j])
  {
    SortedBy(Rows(db, scope, status, token), Newest(db))
  }

  function PageSize(requested: int): (size: nat)
    ensures size > 0
  {
    if requested <= 0 then DEFAULT_PAGE_SIZE else requested
  }

  function Cut(rows: seq<nat>, size: nat): Page
    requires size > 0
  {
    if |rows| > size then Page(rows[..size], Some(rows[size - 1])) else Page(rows, None)
  }

  function ListPage(db: Db, scope: Scope, status: Option<JobStatus>, token: Option<nat>, requested: int): Page {
    Cut(Listing(db, scope, status, token), PageSize(requested))
  }

  /** What a caller asks about: one topic or document, or all topics it can read. */
  datatype Asked = Within(scope: Scope) | Everywhere(topics: seq<Id>)

  function Limited(rows: seq<nat>, limit: nat): seq<nat> {
    if |rows| > limit then rows[..limit] else rows
  }

  /** One topic after the other, each with one row more than the page holds. */
  function Gathered(db: Db, topics: seq<Id>, status: Option<JobStatus>, token: Option<nat>, requested: int): seq<nat> {
    if topics == [] then []
    else
      var n := |topics| - 1;
      Gathered(db, topics[..n], status, token, requested)
      + Limited(Listing(db, ByTopic(topics[n]), status, token), PageSize(requested) + 1)
  }

  function ListEverywhere(db: Db, topics: seq<Id>, status: Option<JobStatus>, token: Option<nat>, requested: int): Page {
    Cut(Gathered(db, topics, status, token, requested), PageSize(requested))
  }

  /** Fetching one row more than the page holds is enough to cut it. */
  lemma OneMoreIsEnough(all: seq<nat>, size: nat)
    requires size > 0
    ensures Cut(Limited(all, size + 1), size) == Cut(all, size)
  {
  }

  class JobServer {
    const db: Store.Database

    constructor (db: Store.Database)
      ensures this.db == db
    {
      this.db := db;
    }

    /** List and ListByTopicID: at most one row more than the page holds. */
    method Query(scope: Scope, status: Option<JobStatus>, token: Option<nat>, requested: int) returns (rows: seq<nat>)
      ensures rows == Limited(Listing(db.State(), scope, status, token), PageSize(requested) + 1)
    {
      var pageSize := requested;
      if pageSize <= 0 {
        pageSize := DEFAULT_PAGE_SIZE;
      }
      rows := Listing(db.State(), scope, status, token);
      if |rows| > pageSize + 1 {
        rows := rows[..pageSize + 1];
      }
    }

    /** The first page of each topic and one row more, one topic after the other. */
    method GatherJobs(topics: seq<Id>, status: Option<JobStatus>, token: Option<nat>, requested: int) returns (allJobs: seq<nat>)
      ensures allJobs == Gathered(db.State(), topics, status, token, requested)
    {
      allJobs := [];
      for i := 0 to |topics|
        invariant allJobs == Gathered(db.State(), topics[..i], status, token, requested)
      {
        assert topics[..i + 1][..i] == topics[..i];
        var topicJobs := Query(ByTopic(topics[i]), status, token, requested);
        allJobs := allJobs + topicJobs;
      }
      assert topics[..|topics|] == topics;
    }

    /** ListJobs; `allowed` is the authorizer's verdict on the topic asked about, and the
        topics of `Everywhere` are those it lists as readable. */
    method ListJobs(asked: Asked, allowed: bool, status: Option<JobStatus>, token: Option<nat>, requested: int)
      returns (r: Result<Page>)
      ensures r == if asked.Within? && asked.scope.ByDocument? && asked.scope.doc !in db.docs then Err(NotFound)
                   else if asked.Within? && !allowed then Err(Denied)
                   else if asked.Within? then Ok(ListPage(db.State(), asked.scope, status, token, requested))
                   else Ok(ListEverywhere(db.State(), asked.topics, status, token, requested))
    {
      if asked.Everywhere? {
        if asked.topics == [] {
          return Ok(Page([], None));
        }
        var jobs := GatherJobs(asked.topics, status, token, requested);
        var gathered := CutPage(jobs, requested);
        return Ok(gathered);
      }
      if asked.scope.ByDocument? && asked.scope.doc !in db.docs {
        return Err(NotFound);
      }
      if !allowed {
        return Err(Denied);
      }
      var page := Serve(asked.scope, status, token, requested);
      r := Ok(page);
    }

    /** The page is cut and the token set. */
    method CutPage(jobs: seq<nat>, requested: int) returns (page: Page)
      ensures page == Cut(jobs, PageSize(requested))
    {
      var pageSize := requested;
      if pageSize <= 0 {
        pageSize := DEFAULT_PAGE_SIZE;
      }
      if |jobs| > pageSize {
        return Page(jobs[..pageSize], Some(jobs[pageSize - 1]));
      }
      page := Page(jobs, None);
    }

    method Serve(scope: Scope, status: Option<JobStatus>, token: Option<nat>, requested: int) returns (page: Page)
      ensures page == ListPage(db.State(), scope, status, token, requested)
    {
      var jobs := Query(scope, status, token, requested);
      OneMoreIsEnough(Listing(db.State(), scope, status, token), PageSize(requested));
      page := CutPage(jobs, requested);
    }
  }

  // ----- what a page holds ---------------------------------------------------------------------

  /** A listing holds the jobs of the topic, or of the document, with the status asked for,
      and behind a token those that are not newer than its job. */
  lemma ListsExactly(db: Db, scope: Scope, status: Option<JobStatus>, token: Option<nat>, j: nat)
    ensures j in Listing(db, scope, status, token) <==>
      && j < |db.jobs| && db.jobs[j].doc.Some?
      && (if scope.ByDocument? then db.jobs[j].doc == Some(scope.doc)
          else db.jobs[j].doc.value in db.docs && db.docs[db.jobs[j].doc.value].topic == scope.topic)
      && (status.None? || db.jobs[j].status == status.value)
      && (token.None? || (token.value < |db.jobs| && j != token.value && db.jobs[j].created <= db.jobs[token.value].created))
  {
  }

  /** A page is the listing cut at the size asked for, 50 when none is, and the token names
      the last job of the page exactly when there are more. */
  lemma PageIsCut(db: Db, scope: Scope, status: Option<JobStatus>, token: Option<nat>, requested: int)
    ensures var all, size := Listing(db, scope, status, token), if requested > 0 then requested else 50;
            ListPage(db, scope, status, token, requested) ==
            if |all| > size then Page(all[..size], Some(all[size - 1])) else Page(all, None)
  {
  }

  /** The jobs of a list that have a status. */
  function OfStatus(db: Db, js: seq<nat>, status: JobStatus): seq<nat> {
    if js == [] then []
    else
      var last := js[|js| - 1];
      OfStatus(db, js[..|js| - 1], status) + if last < |db.jobs| && db.jobs[last].status == status then [last] else []
  }

  lemma {:induction false} OfStatusAt(db: Db, js: seq<nat>, status: JobStatus) returns (at: seq<nat>)
    requires forall i | 0 <= i < |js| :: js[i] < |db.jobs|
    ensures PickedAt(js, OfStatus(db, js, status), at)
    ensures forall i: nat | i < |js| :: i in at <==> db.jobs[js[i]].status == status
  {
    if js == [] {
      at := [];
    } else {
      var n := |js| - 1;
      var before := OfStatusAt(db, js[..n], status);
      PickOne(js[..n], OfStatus(db, js[..n], status), before, js[n]);
      assert js == js[..n] + [js[n]];
      at := before + if db.jobs[js[n]].status == status then [n] else [];
      assert forall i :: i in at <==> i in before || (i == n && db.jobs[js[n]].status == status);
    }
  }

  lemma PickedIsInOrder(all: seq<nat>, picked: seq<nat>, at: seq<nat>, key: map<nat, int>)
    requires PickedAt(all, picked, at) && InOrder(all, key)
    ensures InOrder(picked, key)
  {
  }

  lemma {:induction false} OfStatusHas(db: Db, js: seq<nat>, status: JobStatus, j: nat)
    ensures j in OfStatus(db, js, status) <==> j in js && j < |db.jobs| && db.jobs[j].status == status
  {
    if js != [] {
      OfStatusHas(db, js[..|js| - 1], status, j);
      assert js == js[..|js| - 1] + [js[|js| - 1]];
    }
  }

  lemma StatusListed(db: Db, scope: Scope, status: JobStatus, token: Option<nat>, at: seq<nat>)
    requires PickedAt(Listing(db, scope, None, token), OfStatus(db, Listing(db, scope, None, token), status), at)
    ensures Listing(db, scope, Some(status), token) == OfStatus(db, Listing(db, scope, None, token), status)
  {
    var all := Listing(db, scope, None, token);
    var picked := OfStatus(db, all, status);
    PickedIsInOrder(all, picked, at, Newest(db));
    forall j
      ensures j in picked <==> j in Rows(db, scope, Some(status), token)
    {
      OfStatusHas(db, all, status, j);
    }
    OrderedOnlyOneWay(picked, Rows(db, scope, Some(status), token), Newest(db));
  }

  /** Filtering by status leaves out what has another, and nothing else, and moves nothing. */
  lemma StatusFilters(db: Db, scope: Scope, status: JobStatus, token: Option<nat>) returns (at: seq<nat>)
    ensures PickedAt(Listing(db, scope, None, token), Listing(db, scope, Some(status), token), at)
    ensures forall i: nat | i < |Listing(db, scope, None, token)| ::
      Listing(db, scope, None, token)[i] < |db.jobs| &&
      (i in at <==> db.jobs[Listing(db, scope, None, token)[i]].status == status)
  {
    at := OfStatusAt(db, Listing(db, scope, None, token), status);
    StatusListed(db, scope, status, token, at);
  }

  // ----- following the tokens ----------------------------------------------------------------

  /** No two jobs of the scope were created at the same instant. */
  predicate DistinctStamps(db: Db, scope: Scope) {
    forall i: nat, j: nat | i < j < |db.jobs| && Matches(db, scope, i) && Matches(db, scope, j) ::
      db.jobs[i].created != db.jobs[j].created
  }

  predicate JobsHaveDocs(db: Db) {
    forall j: nat | j < |db.jobs| && db.jobs[j].doc.Some? :: db.jobs[j].doc.value in db.docs
  }

  /** What may happen between two requests: statuses change, documents come, jobs are
      inserted with later stamps. */
  predicate Later(db: Db, db': Db) {
    && |db.jobs| <= |db'.jobs|
    && (forall j: nat | j < |db.jobs| :: db'.jobs[j].doc == db.jobs[j].doc && db'.jobs[j].created == db.jobs[j].created)
    && (forall i: nat, j: nat | i < |db.jobs| <= j < |db'.jobs| :: db.jobs[i].created < db'.jobs[j].created)
    && (forall d | d in db.docs :: d in db'.docs && db'.docs[d].topic == db.docs[d].topic)
  }

  /** All jobs of the scope, newest first: the listing that the pages should add up to. */
  function All(db: Db, scope: Scope): seq<nat> {
    Listing(db, scope, None, None)
  }

  predicate NewestFirst(db: Db, js: seq<nat>) {
    && (forall i | 0 <= i < |js| :: js[i] < |db.jobs|)
    && (forall i, j | 0 <= i < j < |js| :: db.jobs[js[i]].created > db.jobs[js[j]].created)
  }

  lemma ListingIsNewestFirst(db: Db, scope: Scope, status: Option<JobStatus>, token: Option<nat>)
    requires DistinctStamps(db, scope)
    ensures NewestFirst(db, Listing(db, scope, status, token))
  {
    var all := Listing(db, scope, status, token);
    forall i, j | 0 <= i < j < |all|
      ensures db.jobs[all[i]].created > db.jobs[all[j]].created
    {
      assert Before(Newest(db), all[i], all[j]);
      assert Matches(db, scope, all[i]) && Matches(db, scope, all[j]);
    }
  }

  lemma AllIsNewestFirst(db: Db, scope: Scope)
    requires DistinctStamps(db, scope)
    ensures forall j :: j in All(db, scope) <==> Matches(db, scope, j)
    ensures NewestFirst(db, All(db, scope))
  {
    ListingIsNewestFirst(db, scope, None, None);
  }

  /** The rows behind a token of the first listing are what comes after it there, however
      many jobs were inserted since. */
  lemma RowsAfterToken(db: Db, db': Db, scope: Scope, all: seq<nat>, k: nat, j: nat)
    requires JobsHaveDocs(db) && Later(db, db') && k < |all| && NewestFirst(db, all)
    requires forall j :: j in all <==> Matches(db, scope, j)
    ensures j in Rows(db', scope, None, Some(all[k])) <==> j in all[k + 1..]
  {
    assert all[k] in all;
    if j in all {
      var i :| 0 <= i < |all| && all[i] == j;
      if i > k {
        assert all[k + 1..][i - k - 1] == j;
      }
    }
  }

  lemma TailIsStrict(db: Db, db': Db, all: seq<nat>, k: nat)
    requires Later(db, db') && k < |all| && NewestFirst(db, all)
    ensures StrictlyBy(all[k + 1..], Newest(db'))
  {
  }

  lemma NextListing(db: Db, db': Db, scope: Scope, k: nat)
    requires DistinctStamps(db, scope) && JobsHaveDocs(db) && Later(db, db') && k < |All(db, scope)|
    ensures Listing(db', scope, None, Some(All(db, scope)[k])) == All(db, scope)[k + 1..]
  {
    var all := All(db, scope);
    AllIsNewestFirst(db, scope);
    forall j
      ensures j in Rows(db', scope, None, Some(all[k])) <==> j in all[k + 1..]
    {
      RowsAfterToken(db, db', scope, all, k, j);
    }
    TailIsStrict(db, db', all, k);
    SortedOnlyOneWay(all[k + 1..], Rows(db', scope, None, Some(all[k])), Newest(db'));
  }

  /** The pages a client has fetched, each with the tables it was served from and the page
      size it was asked for with. */
  datatype Walk = First(db: Db, requested: int, page: Page) | More(before: Walk, db: Db, requested: int, page: Page)

  /** Each page was asked for with the token of the one before, and nothing but what may
      happen did happen since the first. */
  predicate IsWalk(w: Walk, first: Db, scope: Scope) {
    match w
    case First(db, requested, page) => db == first && page == ListPage(db, scope, None, None, requested)
    case More(before, db, requested, page) =>
      && IsWalk(before, first, scope) && Later(first, db)
      && before.page.next.Some? && page == ListPage(db, scope, None, before.page.next, requested)
  }

  function Length(w: Walk): (n: nat)
    ensures n > 0
  {
    if w.First? then 1 else Length(w.before) + 1
  }

  /** How many jobs the pages have room for: their sizes added up. */
  function Room(w: Walk): (n: nat)
    ensures n >= Length(w)
  {
    PageSize(w.requested) + if w.First? then 0 else Room(w.before)
  }

  function Jobs(w: Walk): seq<nat> {
    if w.First? then w.page.jobs else Jobs(w.before) + w.page.jobs
  }

  /** What the pages so far must be: the first `reach` jobs, and a token if that is not all. */
  predicate Covers(w: Walk, all: seq<nat>, reach: nat) {
    reach > 0 &&
    if |all| > reach then Jobs(w) == all[..reach] && w.page.next == Some(all[reach - 1])
    else Jobs(w) == all && w.page.next == None
  }

  lemma OnePage(w: Walk, all: seq<nat>, size: nat)
    requires w.First? && size > 0 && w.page == Cut(all, size)
    ensures Covers(w, all, size)
  {
  }

  lemma OneMorePage(w: Walk, all: seq<nat>, reach: nat, size: nat)
    requires w.More? && size > 0 && Covers(w.before, all, reach) && |all| > reach && w.page == Cut(all[reach..], size)
    ensures Covers(w, all, reach + size)
  {
    if |all| > reach + size {
      assert all[..reach] + all[reach..][..size] == all[..reach + size];
    } else {
      assert all[..reach] + all[reach..] == all;
    }
  }

  lemma PageAfter(first: Db, db: Db, scope: Scope, requested: int, reach: nat)
    requires DistinctStamps(first, scope) && JobsHaveDocs(first) && Later(first, db) && 0 < reach <= |All(first, scope)|
    ensures ListPage(db, scope, None, Some(All(first, scope)[reach - 1]), requested)
         == Cut(All(first, scope)[reach..], PageSize(requested))
  {
    NextListing(first, db, scope, reach - 1);
  }

  lemma NextIsCut(w: Walk, first: Db, scope: Scope, all: seq<nat>, reach: nat)
    requires w.More? && IsWalk(w, first, scope) && DistinctStamps(first, scope) && JobsHaveDocs(first)
    requires all == All(first, scope) && 0 < reach <= |all| && w.before.page.next == Some(all[reach - 1])
    ensures w.page == Cut(all[reach..], PageSize(w.requested))
  {
    PageAfter(first, w.db, scope, w.requested, reach);
  }

  /** Each page cuts what the pages before it have left of the listing. */
  predicate Chained(w: Walk, all: seq<nat>) {
    match w
    case First(_, requested, page) => page == Cut(all, PageSize(requested))
    case More(before, _, requested, page) =>
      Chained(before, all) && before.page.next.Some? && Room(before) <= |all| && page == Cut(all[Room(before)..], PageSize(requested))
  }

  lemma {:induction false} ChainedCovers(w: Walk, all: seq<nat>)
    requires Chained(w, all)
    ensures Covers(w, all, Room(w))
  {
    if w.More? {
      ChainedCovers(w.before, all);
      OneMorePage(w, all, Room(w.before), PageSize(w.requested));
    } else {
      OnePage(w, all, PageSize(w.requested));
    }
  }

  lemma {:induction false} WalkIsChained(w: Walk, first: Db, scope: Scope, all: seq<nat>)
    requires IsWalk(w, first, scope) && DistinctStamps(first, scope) && JobsHaveDocs(first)
    requires all == All(first, scope)
    ensures Chained(w, all)
  {
    if w.More? {
      WalkIsChained(w.before, first, scope, all);
      ChainedCovers(w.before, all);
      NextIsCut(w, first, scope, all, Room(w.before));
    }
  }

  /** After any pages, of any sizes, the client has as many jobs of the first listing as the
      pages have room for, newest first and each once, and is told to stop exactly when that
      is all. */
  lemma PagesAddUp(w: Walk, first: Db, scope: Scope)
    requires IsWalk(w, first, scope) && DistinctStamps(first, scope) && JobsHaveDocs(first)
    ensures Covers(w, All(first, scope), Room(w))
  {
    WalkIsChained(w, first, scope, All(first, scope));
    ChainedCovers(w, All(first, scope));
  }

  /** A further page was asked for only because more was left. */
  lemma MoreWasLeft(w: Walk, first: Db, scope: Scope)
    requires w.More? && IsWalk(w, first, scope) && DistinctStamps(first, scope) && JobsHaveDocs(first)
    ensures Room(w.before) < |All(first, scope)|
  {
    PagesAddUp(w.before, first, scope);
  }

  lemma WalkHasBrought(w: Walk, all: seq<nat>)
    requires Covers(w, all, Room(w))
    ensures w.page.next.None? <==> Room(w) >= |all|
    ensures w.page.next.None? ==> Jobs(w) == all
  {
  }

  /** Every walk ends, after at most one page per job and one, and then it has brought
      exactly the jobs of the first request, newest first. */
  lemma WalksEnd(w: Walk, first: Db, scope: Scope)
    requires IsWalk(w, first, scope) && DistinctStamps(first, scope) && JobsHaveDocs(first)
    ensures Length(w) - 1 <= |All(first, scope)|
    ensures w.page.next.None? <==> Room(w) >= |All(first, scope)|
    ensures w.page.next.None? ==> Jobs(w) == All(first, scope)
  {
    if w.More? {
      MoreWasLeft(w, first, scope);
    }
    PagesAddUp(w, first, scope);
    WalkHasBrought(w, All(first, scope));
  }

  // ----- equal stamps -------------------------------------------------------------------------

  /** Before and after position `k` of a listing. */
  lemma AroundPosition(db: Db, all: seq<nat>, k: nat, i: nat)
    requires k < |all| && i < |all| && all[i] < |db.jobs| && all[k] < |db.jobs|
    requires forall i, j | 0 <= i < j < |all| :: all[i] != all[j] && all[i] < |db.jobs| && all[j] < |db.jobs| && Before(Newest(db), all[i], all[j])
    ensures all[i] in all[k + 1..] <==> i > k
    ensures i < k ==> db.jobs[all[i]].created >= db.jobs[all[k]].created
    ensures i > k ==> db.jobs[all[i]].created <= db.jobs[all[k]].created && all[i] != all[k]
  {
    if i < k {
      assert Before(Newest(db), all[i], all[k]);
    } else if i > k {
      assert Before(Newest(db), all[k], all[i]);
      assert all[k + 1..][i - k - 1] == all[i];
    }
  }

  predicate Stamped(db: Db, js: seq<nat>, i: nat, stamp: int) {
    i < |js| && js[i] < |db.jobs| && db.jobs[js[i]].created == stamp
  }

  /** A token hands over to the rest of the listing exactly when no job listed before it
      has its stamp; such a job is served again, and again. */
  lemma TokenIsExactIff(db: Db, scope: Scope, k: nat)
    requires k < |All(db, scope)|
    ensures All(db, scope)[k] < |db.jobs|
    ensures (forall j :: j in Rows(db, scope, None, Some(All(db, scope)[k])) <==> j in All(db, scope)[k + 1..]) <==>
            (forall i | 0 <= i < k :: !Stamped(db, All(db, scope), i, db.jobs[All(db, scope)[k]].created))
  {
    var all := All(db, scope);
    var rows := Rows(db, scope, None, Some(all[k]));
    forall i | 0 <= i < |all|
      ensures all[i] in rows <==> i > k || (i < k && Stamped(db, all, i, db.jobs[all[k]].created))
      ensures all[i] in all[k + 1..] <==> i > k
    {
      AroundPosition(db, all, k, i);
    }
    forall j | j in rows
      ensures exists i :: 0 <= i < |all| && all[i] == j
    {
      assert j in all;
    }
    if i :| 0 <= i < k && Stamped(db, all, i, db.jobs[all[k]].created) {
      assert all[i] in rows && all[i] !in all[k + 1..];
    }
  }

  // ----- all topics at once -------------------------------------------------------------------

  /** The newest-first order of what is listed in `a` and then in `b`. */
  predicate AllNewer(db: Db, a: seq<nat>, b: seq<nat>) {
    forall x, y | x in a && y in b && x < |db.jobs| && y < |db.jobs| :: db.jobs[x].created > db.jobs[y].created
  }

  lemma ConcatenationIsNewestFirstIff(db: Db, a: seq<nat>, b: seq<nat>)
    requires (forall x | x in a :: x < |db.jobs|) && (forall y | y in b :: y < |db.jobs|)
    ensures NewestFirst(db, a + b) <==> NewestFirst(db, a) && NewestFirst(db, b) && AllNewer(db, a, b)
  {
    var s := a + b;
    if NewestFirst(db, s) {
      assert forall i | 0 <= i < |a| :: s[i] == a[i];
      assert forall i | 0 <= i < |b| :: s[|a| + i] == b[i];
    }
  }

  /** Each topic in turn: everything of it is newer than everything of the later ones. */
  predicate TopicsInOrder(db: Db, topics: seq<Id>, status: Option<JobStatus>, token: Option<nat>, requested: int) {
    topics == [] ||
    var n := |topics| - 1;
    && TopicsInOrder(db, topics[..n], status, token, requested)
    && AllNewer(db, Gathered(db, topics[..n], status, token, requested),
                Limited(Listing(db, ByTopic(topics[n]), status, token), PageSize(requested) + 1))
  }

  lemma PrefixIsNewestFirst(db: Db, rows: seq<nat>, limit: nat)
    requires NewestFirst(db, rows)
    ensures NewestFirst(db, Limited(rows, limit))
    ensures forall j | j in Limited(rows, limit) :: j < |db.jobs|
  {
  }

  lemma OneTopicIsNewestFirst(db: Db, topic: Id, status: Option<JobStatus>, token: Option<nat>, limit: nat)
    requires DistinctStamps(db, ByTopic(topic))
    ensures var rows := Limited(Listing(db, ByTopic(topic), status, token), limit);
            NewestFirst(db, rows) && forall j | j in rows :: j < |db.jobs|
  {
    ListingIsNewestFirst(db, ByTopic(topic), status, token);
    PrefixIsNewestFirst(db, Listing(db, ByTopic(topic), status, token), limit);
  }

  lemma {:induction false} GatheredAreJobs(db: Db, topics: seq<Id>, status: Option<JobStatus>, token: Option<nat>, requested: int)
    requires forall t | t in topics :: DistinctStamps(db, ByTopic(t))
    ensures forall j | j in Gathered(db, topics, status, token, requested) :: j < |db.jobs|
  {
    if topics != [] {
      var n := |topics| - 1;
      GatheredAreJobs(db, topics[..n], status, token, requested);
      OneTopicIsNewestFirst(db, topics[n], status, token, PageSize(requested) + 1);
    }
  }

  /** The listing over all topics is newest first exactly when each topic's jobs are newer
      than those of the topics after it: it is not sorted again. */
  lemma {:induction false} EverywhereIsNewestFirstIff(db: Db, topics: seq<Id>, status: Option<JobStatus>, token: Option<nat>, requested: int)
    requires forall t | t in topics :: DistinctStamps(db, ByTopic(t))
    ensures NewestFirst(db, Gathered(db, topics, status, token, requested)) <==> TopicsInOrder(db, topics, status, token, requested)
  {
    if topics != [] {
      var n := |topics| - 1;
      EverywhereIsNewestFirstIff(db, topics[..n], status, token, requested);
      GatheredAreJobs(db, topics[..n], status, token, requested);
      var last := Limited(Listing(db, ByTopic(topics[n]), status, token), PageSize(requested) + 1);
      OneTopicIsNewestFirst(db, topics[n], status, token, PageSize(requested) + 1);
      ConcatenationIsNewestFirstIff(db, Gathered(db, topics[..n], status, token, requested), last);
    }
  }

  lemma GatheredFromOne(db: Db, topic: Id, status: Option<JobStatus>, token: Option<nat>, requested: int)
    ensures Gathered(db, [topic], status, token, requested) == Limited(Listing(db, ByTopic(topic), status, token), PageSize(requested) + 1)
  {
    assert [topic][..0] == [];
  }

  /** With one readable topic it is that topic's listing. */
  lemma OneTopicIsItsListing(db: Db, topic: Id, status: Option<JobStatus>, token: Option<nat>, requested: int)
    ensures ListEverywhere(db, [topic], status, token, requested) == ListPage(db, ByTopic(topic), status, token, requested)
  {
    var rows := Listing(db, ByTopic(topic), status, token);
    GatheredFromOne(db, topic, status, token, requested);
    OneMoreIsEnough(rows, PageSize(requested));
  }

  // ----- walks over all topics -----------------------------------------------------------------

  /** The listings of the topics behind a token, one after the other. */
  function Whole(db: Db, topics: seq<Id>, status: Option<JobStatus>, token: Option<nat>): seq<nat> {
    if topics == [] then []
    else
      var n := |topics| - 1;
      Whole(db, topics[..n], status, token) + Listing(db, ByTopic(topics[n]), status, token)
  }

  /** What comes after the first `limit` rows makes no difference to the first `limit`. */
  lemma LimitedConcatenation(a: seq<nat>, a': seq<nat>, b: seq<nat>, limit: nat)
    requires Limited(a, limit) == Limited(a', limit)
    ensures Limited(a + Limited(b, limit), limit) == Limited(a' + b, limit)
  {
    var left, right := a + Limited(b, limit), a' + b;
    if |a| > limit {
      assert |a'| >= limit;
      assert left[..limit] == a[..limit] && right[..limit] == a'[..limit];
    } else if |a'| > limit {
      assert a == a'[..limit] && left[..limit] == a && right[..limit] == a'[..limit];
    } else if |left| > limit {
      assert left[..limit] == right[..limit];
    }
  }

  lemma {:induction false} GatheredIsWhole(db: Db, topics: seq<Id>, status: Option<JobStatus>, token: Option<nat>, requested: int)
    ensures var limit := PageSize(requested) + 1;
            Limited(Gathered(db, topics, status, token, requested), limit) == Limited(Whole(db, topics, status, token), limit)
  {
    if topics != [] {
      var n, limit := |topics| - 1, PageSize(requested) + 1;
      GatheredIsWhole(db, topics[..n], status, token, requested);
      LimitedConcatenation(Gathered(db, topics[..n], status, token, requested), Whole(db, topics[..n], status, token),
                           Listing(db, ByTopic(topics[n]), status, token), limit);
    }
  }

  /** Although each topic is asked for one row more than the page only, the page is cut from
      the whole concatenation. */
  lemma EverywhereCutsWhole(db: Db, topics: seq<Id>, status: Option<JobStatus>, token: Option<nat>, requested: int)
    ensures ListEverywhere(db, topics, status, token, requested) == Cut(Whole(db, topics, status, token), PageSize(requested))
  {
    GatheredIsWhole(db, topics, status, token, requested);
    OneMoreIsEnough(Gathered(db, topics, status, token, requested), PageSize(requested));
    OneMoreIsEnough(Whole(db, topics, status, token), PageSize(requested));
  }

  /** The pages over all topics, each with the token of the one before. */
  predicate IsWideWalk(w: Walk, first: Db, topics: seq<Id>) {
    match w
    case First(db, requested, page) => db == first && page == ListEverywhere(db, topics, None, None, requested)
    case More(before, db, requested, page) =>
      && IsWideWalk(before, first, topics) && Later(first, db)
      && before.page.next.Some? && page == ListEverywhere(db, topics, None, before.page.next, requested)
  }

  predicate Among(db: Db, topics: seq<Id>, j: nat) {
    exists t :: t in topics && Matches(db, ByTopic(t), j)
  }

  /** Distinct topics, and no two of their jobs created at the same instant. */
  predicate DistinctWide(db: Db, topics: seq<Id>) {
    && (forall i, j | 0 <= i < j < |topics| :: topics[i] != topics[j])
    && (forall i: nat, j: nat | i < j < |db.jobs| && Among(db, topics, i) && Among(db, topics, j) :: db.jobs[i].created != db.jobs[j].created)
  }

  /** The jobs of a list that were created before `stamp`. */
  function Older(db: Db, js: seq<nat>, stamp: int): seq<nat> {
    if js == [] then [] else Older(db, js[..|js| - 1], stamp) + OlderOne(db, js[|js| - 1], stamp)
  }

  function OlderOne(db: Db, j: nat, stamp: int): seq<nat> {
    if j < |db.jobs| && db.jobs[j].created < stamp then [j] else []
  }

  lemma {:induction false} OlderHas(db: Db, js: seq<nat>, stamp: int, j: nat)
    ensures j in Older(db, js, stamp) <==> j in js && j < |db.jobs| && db.jobs[j].created < stamp
  {
    if js != [] {
      OlderHas(db, js[..|js| - 1], stamp, j);
      assert js == js[..|js| - 1] + [js[|js| - 1]];
    }
  }

  lemma OlderOneMore(db: Db, js: seq<nat>, j: nat, stamp: int)
    ensures Older(db, js + [j], stamp) == Older(db, js, stamp) + OlderOne(db, j, stamp)
  {
    assert (js + [j])[..|js|] == js;
  }

  lemma Associate(x: seq<nat>, y: seq<nat>, z: seq<nat>)
    ensures x + y + z == x + (y + z)
  {
  }

  lemma {:induction false} OlderConcatenation(db: Db, a: seq<nat>, b: seq<nat>, stamp: int)
    ensures Older(db, a + b, stamp) == Older(db, a, stamp) + Older(db, b, stamp)
  {
    if b == [] {
      assert a + b == a;
    } else {
      var init, last := b[..|b| - 1], b[|b| - 1];
      assert b == init + [last];
      Associate(a, init, [last]);
      OlderConcatenation(db, a, init, stamp);
      OlderOneMore(db, a + init, last, stamp);
      OlderOneMore(db, init, last, stamp);
      Associate(Older(db, a, stamp), Older(db, init, stamp), OlderOne(db, last, stamp));
    }
  }

  lemma {:induction false} OlderIsNewestFirst(db: Db, js: seq<nat>, stamp: int)
    requires NewestFirst(db, js)
    ensures NewestFirst(db, Older(db, js, stamp))
  {
    if js != [] {
      var n := |js| - 1;
      OlderIsNewestFirst(db, js[..n], stamp);
      forall j | j in Older(db, js[..n], stamp)
        ensures db.jobs[j].created > db.jobs[js[n]].created
      {
        OlderHas(db, js[..n], stamp, j);
        var i :| 0 <= i < n && js[..n][i] == j;
        assert js[i] == j;
      }
    }
  }

  /** In a list that is newest first the older ones are the rest of it. */
  lemma OlderIsTheRest(db: Db, js: seq<nat>, k: nat)
    requires NewestFirst(db, js) && k < |js|
    ensures Older(db, js, db.jobs[js[k]].created) == js[k + 1..]
  {
    var stamp := db.jobs[js[k]].created;
    OrderAround(db, js, k);
    assert js == js[..k + 1] + js[k + 1..];
    OlderConcatenation(db, js[..k + 1], js[k + 1..], stamp);
    NothingOlder(db, js[..k + 1], stamp);
    AllOlder(db, js[k + 1..], stamp);
  }

  lemma OrderAround(db: Db, js: seq<nat>, k: nat)
    requires NewestFirst(db, js) && k < |js|
    ensures forall j | j in js[..k + 1] :: j < |db.jobs| && db.jobs[j].created >= db.jobs[js[k]].created
    ensures forall j | j in js[k + 1..] :: j < |db.jobs| && db.jobs[j].created < db.jobs[js[k]].created
  {
  }

  lemma {:induction false} AllOlder(db: Db, js: seq<nat>, stamp: int)
    requires forall j | j in js :: j < |db.jobs| && db.jobs[j].created < stamp
    ensures Older(db, js, stamp) == js
  {
    if js != [] {
      var init, last := js[..|js| - 1], js[|js| - 1];
      assert js == init + [last];
      assert (forall j | j in init :: j in js) && last in js;
      AllOlder(db, init, stamp);
    }
  }

  lemma {:induction false} NothingOlder(db: Db, js: seq<nat>, stamp: int)
    requires forall j | j in js :: j < |db.jobs| && db.jobs[j].created >= stamp
    ensures Older(db, js, stamp) == []
  {
    if js != [] {
      NothingOlder(db, js[..|js| - 1], stamp);
    }
  }

  // ----- exactly when such walks are right ---------------------------------------------------------

  /** The jobs of one topic behind a token are the older ones of its first listing, however
      many jobs were inserted since. */
  lemma TopicBehindToken(db: Db, db': Db, topics: seq<Id>, i: nat, x: nat)
    requires DistinctWide(db, topics) && JobsHaveDocs(db) && Later(db, db') && i < |topics|
    requires x < |db.jobs| && Among(db, topics, x)
    ensures Listing(db', ByTopic(topics[i]), None, Some(x)) == Older(db, Listing(db, ByTopic(topics[i]), None, None), db.jobs[x].created)
  {
    var scope, stamp := ByTopic(topics[i]), db.jobs[x].created;
    var all := Listing(db, scope, None, None);
    OneTopicIsDistinct(db, topics, i);
    ListingIsNewestFirst(db, scope, None, None);
    OlderIsNewestFirst(db, all, stamp);
    forall j
      ensures j in Older(db, all, stamp) <==> j in Rows(db', scope, None, Some(x))
    {
      OlderHas(db, all, stamp, j);
      RowBehindIff(db, db', topics, i, x, j);
    }
    LaterIsStrict(db, db', Older(db, all, stamp));
    SortedOnlyOneWay(Older(db, all, stamp), Rows(db', scope, None, Some(x)), Newest(db'));
  }

  lemma OneTopicIsDistinct(db: Db, topics: seq<Id>, i: nat)
    requires DistinctWide(db, topics) && i < |topics|
    ensures DistinctStamps(db, ByTopic(topics[i]))
  {
    assert topics[i] in topics;
  }

  lemma RowBehindIff(db: Db, db': Db, topics: seq<Id>, i: nat, x: nat, j: nat)
    requires DistinctWide(db, topics) && JobsHaveDocs(db) && Later(db, db') && i < |topics|
    requires x < |db.jobs| && Among(db, topics, x)
    ensures j in Rows(db', ByTopic(topics[i]), None, Some(x)) <==>
            j < |db.jobs| && Matches(db, ByTopic(topics[i]), j) && db.jobs[j].created < db.jobs[x].created
  {
    assert topics[i] in topics;
    if j < |db.jobs| && Matches(db, ByTopic(topics[i]), j) && j != x {
      assert Among(db, topics, j);
      assert db.jobs[j].created != db.jobs[x].created;
    }
  }

  lemma LaterIsStrict(db: Db, db': Db, js: seq<nat>)
    requires Later(db, db') && NewestFirst(db, js)
    ensures StrictlyBy(js, Newest(db'))
  {
  }

  lemma {:induction false} WholeBehindToken(db: Db, db': Db, topics: seq<Id>, n: nat, x: nat)
    requires DistinctWide(db, topics) && JobsHaveDocs(db) && Later(db, db') && n <= |topics|
    requires x < |db.jobs| && Among(db, topics, x)
    ensures Whole(db', topics[..n], None, Some(x)) == Older(db, Whole(db, topics[..n], None, None), db.jobs[x].created)
  {
    if n > 0 {
      assert topics[..n][..n - 1] == topics[..n - 1] && topics[..n][n - 1] == topics[n - 1];
      WholeBehindToken(db, db', topics, n - 1, x);
      TopicBehindToken(db, db', topics, n - 1, x);
      OlderConcatenation(db, Whole(db, topics[..n - 1], None, None), Listing(db, ByTopic(topics[n - 1]), None, None), db.jobs[x].created);
    }
  }

  lemma AmongOneMore(db: Db, topics: seq<Id>, t: Id, j: nat)
    ensures Among(db, topics + [t], j) <==> Among(db, topics, j) || Matches(db, ByTopic(t), j)
  {
    assert forall s :: s in topics + [t] <==> s in topics || s == t;
  }

  lemma {:induction false} WholeIsAmong(db: Db, topics: seq<Id>, j: nat)
    ensures j in Whole(db, topics, None, None) <==> Among(db, topics, j)
  {
    if topics != [] {
      var n := |topics| - 1;
      WholeIsAmong(db, topics[..n], j);
      AmongOneMore(db, topics[..n], topics[n], j);
      assert topics == topics[..n] + [topics[n]];
    }
  }

  /** Behind any token served, on any later tables: the older jobs of the concatenation. */
  lemma WideNext(db: Db, db': Db, topics: seq<Id>, k: nat)
    requires DistinctWide(db, topics) && JobsHaveDocs(db) && Later(db, db') && k < |Whole(db, topics, None, None)|
    ensures Whole(db, topics, None, None)[k] < |db.jobs|
    ensures var all := Whole(db, topics, None, None);
            Whole(db', topics, None, Some(all[k])) == Older(db, all, db.jobs[all[k]].created)
  {
    var all := Whole(db, topics, None, None);
    assert all[k] in all;
    WholeIsAmong(db, topics, all[k]);
    assert topics[..|topics|] == topics;
    WholeBehindToken(db, db', topics, |topics|, all[k]);
  }

  lemma {:induction false} WideWalkIsChained(w: Walk, first: Db, topics: seq<Id>, all: seq<nat>)
    requires IsWideWalk(w, first, topics) && DistinctWide(first, topics) && JobsHaveDocs(first)
    requires all == Whole(first, topics, None, None) && NewestFirst(first, all)
    ensures Chained(w, all)
  {
    if w.More? {
      WideWalkIsChained(w.before, first, topics, all);
      ChainedCovers(w.before, all);
      var k := Room(w.before) - 1;
      WideNext(first, w.db, topics, k);
      OlderIsTheRest(first, all, k);
      EverywhereCutsWhole(w.db, topics, None, Some(all[k]), w.requested);
    } else {
      EverywhereCutsWhole(first, topics, None, None, w.requested);
    }
  }

  /** Every walk over all topics that is told to stop has brought exactly the concatenation. */
  ghost predicate WalksBringWhole(first: Db, topics: seq<Id>) {
    forall w | IsWideWalk(w, first, topics) && w.page.next.None? :: Jobs(w) == Whole(first, topics, None, None)
  }

  /** The walk that asks for the page ending at position `k`, and then for all the rest. */
  lemma TwoPages(first: Db, topics: seq<Id>, k: nat) returns (w: Walk)
    requires DistinctWide(first, topics) && JobsHaveDocs(first) && k + 1 < |Whole(first, topics, None, None)|
    ensures Whole(first, topics, None, None)[k] < |first.jobs|
    ensures var all := Whole(first, topics, None, None);
            IsWideWalk(w, first, topics) && w.page.next.None? && Jobs(w) == all[..k + 1] + Older(first, all, first.jobs[all[k]].created)
  {
    var all := Whole(first, topics, None, None);
    WideNext(first, first, topics, k);
    var rest := Older(first, all, first.jobs[all[k]].created);
    EverywhereCutsWhole(first, topics, None, None, k + 1);
    EverywhereCutsWhole(first, topics, None, Some(all[k]), |rest| + 1);
    var one := First(first, k + 1, Page(all[..k + 1], Some(all[k])));
    w := More(one, first, |rest| + 1, Page(rest, None));
  }

  predicate OutOfOrder(db: Db, js: seq<nat>, k: nat) {
    k + 1 < |js| && js[k] < |db.jobs| && js[k + 1] < |db.jobs| && db.jobs[js[k]].created <= db.jobs[js[k + 1]].created
  }

  lemma OneMoreInOrder(db: Db, js: seq<nat>)
    requires js != [] && NewestFirst(db, js[..|js| - 1]) && js[|js| - 1] < |db.jobs| && (|js| > 1 ==> js[|js| - 2] < |db.jobs|)
    requires |js| > 1 ==> db.jobs[js[|js| - 2]].created > db.jobs[js[|js| - 1]].created
    ensures NewestFirst(db, js)
  {
    var n := |js| - 1;
    var init := js[..n];
    forall i | 0 <= i < n
      ensures db.jobs[js[i]].created > db.jobs[js[n]].created
    {
      assert init[i] == js[i] && init[n - 1] == js[n - 1];
    }
    assert forall i | 0 <= i < n :: init[i] == js[i];
  }

  lemma TwoAtLeast(db: Db, js: seq<nat>)
    requires (forall i | 0 <= i < |js| :: js[i] < |db.jobs|) && !NewestFirst(db, js)
    ensures |js| >= 2
  {
  }

  lemma {:induction false} SomeOutOfOrder(db: Db, js: seq<nat>) returns (k: nat)
    requires (forall i | 0 <= i < |js| :: js[i] < |db.jobs|) && !NewestFirst(db, js)
    ensures OutOfOrder(db, js, k)
  {
    var n := |js| - 1;
    if NewestFirst(db, js[..n]) {
      TwoAtLeast(db, js);
      k := n - 1;
      if !OutOfOrder(db, js, k) {
        OneMoreInOrder(db, js);
      }
    } else {
      k := SomeOutOfOrder(db, js[..n]);
    }
  }

  /** With two jobs out of order a walk can lose the newer of them. */
  lemma OutOfOrderLoses(first: Db, topics: seq<Id>, k: nat)
    requires DistinctWide(first, topics) && JobsHaveDocs(first) && OutOfOrder(first, Whole(first, topics, None, None), k)
    ensures !WalksBringWhole(first, topics)
  {
    var all := Whole(first, topics, None, None);
    var stamp := first.jobs[all[k]].created;
    var w := TwoPages(first, topics, k);
    var rest := Older(first, all, stamp);
    if rest != [] {
      OlderHas(first, all, stamp, rest[0]);
      assert Jobs(w)[k + 1] == rest[0];
    }
  }

  /** Walks over all topics, with any page sizes and later-stamped jobs inserted meanwhile,
      bring every job of the first moment exactly once if and only if the topics happen to be
      listed newest first; otherwise some walk loses a job. */
  lemma WideWalksIff(first: Db, topics: seq<Id>)
    requires DistinctWide(first, topics) && JobsHaveDocs(first)
    ensures WalksBringWhole(first, topics) <==> NewestFirst(first, Whole(first, topics, None, None))
  {
    var all := Whole(first, topics, None, None);
    forall i | 0 <= i < |all|
      ensures all[i] < |first.jobs|
    {
      assert all[i] in all;
      WholeIsAmong(first, topics, all[i]);
    }
    if NewestFirst(first, all) {
      forall w | IsWideWalk(w, first, topics) && w.page.next.None?
        ensures Jobs(w) == all
      {
        WideWalkIsChained(w, first, topics, all);
        ChainedCovers(w, all);
        WalkHasBrought(w, all);
      }
    } else {
      var k := SomeOutOfOrder(first, all);
      OutOfOrderLoses(first, topics, k);
    }
  }

  lemma WholeOneMore(db: Db, topics: seq<Id>, t: Id, token: Option<nat>)
    ensures Whole(db, topics + [t], None, token) == Whole(db, topics, None, token) + Listing(db, ByTopic(t), None, token)
  {
    assert (topics + [t])[..|topics|] == topics;
  }

  lemma WholeOfOne(db: Db, s: Id, token: Option<nat>)
    ensures Whole(db, [s], None, token) == Listing(db, ByTopic(s), None, token)
  {
    WholeOneMore(db, [], s, token);
    FromNothing([s]);
    FromNothing(Listing(db, ByTopic(s), None, token));
  }

  lemma FromNothing(s: seq<nat>)
    ensures [] + s == s
  {
  }

  lemma WholeOfTwo(db: Db, s: Id, t: Id, token: Option<nat>)
    ensures Whole(db, [s, t], None, token) == Listing(db, ByTopic(s), None, token) + Listing(db, ByTopic(t), None, token)
  {
    WholeOfOne(db, s, token);
    assert [s] + [t] == [s, t];
    WholeOneMore(db, [s], t, token);
  }

  lemma NoneBehind(db: Db, t: Id, y: nat, x: nat)
    requires Rows(db, ByTopic(t), None, None) == {y} && (y == x || !Behind(db, y, x)) && y < |db.jobs|
    ensures Listing(db, ByTopic(t), None, Some(x)) == []
  {
    assert Rows(db, ByTopic(t), None, Some(x)) <= Rows(db, ByTopic(t), None, None);
  }

  /** Two topics with a job each, the older one first, and pages of one: the first page hands
      over to nothing, and the newer job is never served. */
  lemma OlderTopicFirst(db: Db, s: Id, t: Id, x: nat, y: nat)
    requires s != t && Rows(db, ByTopic(s), None, None) == {x} && Rows(db, ByTopic(t), None, None) == {y}
    requires x < |db.jobs| && y < |db.jobs| && db.jobs[x].created < db.jobs[y].created
    ensures ListEverywhere(db, [s, t], None, None, 1) == Page([x], Some(x))
    ensures ListEverywhere(db, [s, t], None, Some(x), 1) == Page([], None)
  {
    SortedOnlyOneWay([x], {x}, Newest(db));
    SortedOnlyOneWay([y], {y}, Newest(db));
    WholeOfTwo(db, s, t, None);
    EverywhereCutsWhole(db, [s, t], None, None, 1);
    NoneBehind(db, s, x, x);
    NoneBehind(db, t, y, x);
    WholeOfTwo(db, s, t, Some(x));
    EverywhereCutsWhole(db, [s, t], None, Some(x), 1);
  }
}

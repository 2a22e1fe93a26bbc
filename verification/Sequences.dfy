/** Sequence numbers under compaction, and the chat session that resumes on top of them. */
module Sequences {
  import opened Tables
  import opened Calls
  import opened Interleaving
  import opened Effects
  import opened Embeddings
  import opened Serial

  /** A parent is in the document of its child and has a strictly larger sequence. */
  predicate Climbing(db: Db) {
    forall c | c in db.chunks && db.chunks[c].compactedBy.Some? ::
      var p := db.chunks[c].compactedBy.value;
      p in db.chunks && db.chunks[p].doc == db.chunks[c].doc && db.chunks[c].sequence < db.chunks[p].sequence
  }

  /** Compactions only name chunks of the document they were requested for. */
  predicate SameDocument(db: Db, r: Request) {
    match r
    case Compact(p) => SourcesBelow(p, db.next) && forall c | c in p.sources && c in db.chunks :: db.chunks[c].doc == p.doc
    case _ => true
  }

  lemma {:induction false} IngestKeepsClimbing(db: Db, doc: Id, xs: seq<Input>)
    requires Grounded(db) && Climbing(db)
    ensures Grounded(IngestAll(db, doc, xs)) && Climbing(IngestAll(db, doc, xs))
  {
    if xs != [] {
      IngestKeepsClimbing(db, doc, xs[..|xs| - 1]);
    }
  }

  lemma CompactKeepsClimbing(db: Db, p: Plan)
    requires Grounded(db) && Climbing(db) && SameDocument(db, Compact(p))
    ensures Climbing(db.(chunks := ChunksAfter(db, p)))
  {
    var chunks, hit, s := ChunksAfter(db, p), ActiveAmong(db, p.sources), db.next;
    forall c | c in chunks && chunks[c].compactedBy.Some?
      ensures var q := chunks[c].compactedBy.value;
              q in chunks && chunks[q].doc == chunks[c].doc && chunks[c].sequence < chunks[q].sequence
    {
      assert chunks[c] == if c in hit then CompactedInto(db.chunks[c], s) else db.chunks[c];
    }
  }

  lemma UncompactKeepsClimbing(db: Db, s: Id, doc: Id)
    requires Climbing(db)
    ensures Climbing(UncompactedDb(db, s, doc))
  {
    var chunks := UncompactedDb(db, s, doc).chunks;
    forall c | c in chunks && chunks[c].compactedBy.Some?
      ensures var q := chunks[c].compactedBy.value;
              q in chunks && chunks[q].doc == chunks[c].doc && chunks[c].sequence < chunks[q].sequence
    {
      assert chunks[c] == Revived(db.chunks[c], s);
      var q := db.chunks[c].compactedBy.value;
      assert q != s && chunks[q] == Revived(db.chunks[q], s);
    }
  }

  lemma DeleteKeepsClimbing(db: Db, id: Id)
    requires Grounded(db) && Climbing(db)
    ensures Climbing(DeleteChunk(db, id).0)
  {
    var after := DeleteChunk(db, id).0;
    forall c | c in after.chunks && after.chunks[c].compactedBy.Some?
      ensures after.chunks[c].compactedBy.value in after.chunks
    {
      assert after.chunks[c] == db.chunks[c];
      assert db.chunks[c].compactedBy.value == id ==> c in Children(DeleteVectors(db, {id}), id);
    }
  }

  lemma CompactionKeepsClimbing(db: Db, p: Plan)
    requires Sound(db) && Climbing(db) && SameDocument(db, Compact(p))
    ensures Climbing(Finish(db, Numbering(p)).0)
  {
    FinishCompaction(db, p);
    CompactKeepsClimbing(db, p);
    if ActiveAmong(db, p.sources) == {} {
      NoActiveNoChange(db, p);
    }
    assert CompactedDb(db, p).0.chunks == ChunksAfter(db, p);
  }

  lemma UncompactionKeepsClimbing(db: Db, s: Id, allowed: bool)
    requires Sound(db) && Climbing(db)
    ensures Climbing(Finish(db, UncompactCall(s, allowed)).0)
  {
    var found := RecordFor(db, s);
    if found.Some? {
      FinishUncompaction(db, s, allowed);
      UncompactKeepsClimbing(db, s, db.records[found.value].doc);
    } else {
      FinishLooking(db, s, allowed);
    }
  }

  lemma TaggedClimbs(db: Db, after: Db, ids: set<Id>)
    requires Climbing(db) && (after.chunks == db.chunks || after.chunks == Tagged(db.chunks, ids))
    ensures Climbing(after)
  {
  }

  lemma EmbedKeepsClimbing(db: Db, doc: Id, provider: Provider, model: string)
    requires Climbing(db)
    ensures Climbing(EmbedDocument(db, doc, provider, model).0)
  {
    TaggedClimbs(db, EmbedDocument(db, doc, provider, model).0, Elements(Todo(db, doc)));
  }

  lemma ServeKeepsClimbing(db: Db, r: Request)
    requires Sound(db) && Climbing(db) && SameDocument(db, r)
    ensures Climbing(Serve(db, r))
  {
    match r
    case Ingest(doc, xs) => IngestKeepsClimbing(db, doc, xs);
    case Delete(id) => DeleteKeepsClimbing(db, id);
    case Compact(p) => CompactionKeepsClimbing(db, p);
    case Uncompact(s, allowed) => UncompactionKeepsClimbing(db, s, allowed);
    case Embed(doc, provider, model) => EmbedKeepsClimbing(db, doc, provider, model);
  }

  predicate AllSameDocument(db: Db, rs: seq<Request>)
    decreases |rs|
  {
    rs == [] || (SameDocument(db, rs[0]) && AllSameDocument(Serve(db, rs[0]), rs[1..]))
  }

  lemma {:induction false} ParentsAlwaysClimb(db: Db, rs: seq<Request>)
    requires Sound(db) && Climbing(db) && AllAdmissible(db, rs) && AllSameDocument(db, rs)
    ensures Sound(ServeAll(db, rs)) && Climbing(ServeAll(db, rs))
    decreases |rs|
  {
    if rs != [] {
      ServeKeepsSound(db, rs[0]);
      ServeKeepsClimbing(db, rs[0]);
      ParentsAlwaysClimb(Serve(db, rs[0]), rs[1..]);
    }
  }

  /** The chunk that stands for `c` is in the same document, and at least as high. */
  lemma {:induction false} RootIsHigher(db: Db, c: Id)
    requires Grounded(db) && Climbing(db) && c in db.chunks
    ensures var r := Root(db, c);
            r in ActiveIn(db, db.chunks[c].doc) && db.chunks[c].sequence <= db.chunks[r].sequence
    decreases db.next - c
  {
    if db.chunks[c].compactedBy.Some? {
      RootIsHigher(db, db.chunks[c].compactedBy.value);
    }
  }

  // ----- resuming a chat session ----------------------------------------------------

  const MAX_INT32 := 0x7fff_ffff

  /** int32 arithmetic wraps around. */
  function Int32(x: int): int {
    (x + 0x8000_0000) % 0x1_0000_0000 - 0x8000_0000
  }

  /** The sequences GetContext shows: those of the active chunks, in order. */
  function Visible(db: Db, doc: Id): (ns: seq<int>) {
    var ids := ListByDocument(db, doc);
    seq(|ids|, i requires 0 <= i < |ids| => db.chunks[ids[i]].sequence)
  }

  function MaxSeq(ns: seq<int>): int {
    if ns == [] then 0 else
      var before := MaxSeq(ns[..|ns| - 1]);
      if ns[|ns| - 1] > before then ns[|ns| - 1] else before
  }

  /** resumeSession: the offset past the highest sequence it is shown. */
  method ResumeSession(visible: seq<int>) returns (seqOffset: int)
    ensures seqOffset == Int32(MaxSeq(visible) + 1)
    ensures (forall n | n in visible :: n < MAX_INT32) ==>
      seqOffset > 0 && (forall n | n in visible :: n < seqOffset) && (seqOffset == 1 || seqOffset - 1 in visible)
  {
    var maxSeq := 0;
    for i := 0 to |visible|
      invariant maxSeq == MaxSeq(visible[..i])
    {
      assert visible[..i + 1][..i] == visible[..i];
      if visible[i] > maxSeq {
        maxSeq := visible[i];
      }
    }
    assert visible[..|visible|] == visible;
    seqOffset := Int32(maxSeq + 1);
    MaxSeqBounds(visible);
  }

  /** The pair of sequences turn `t` writes, first the user's, then the assistant's. */
  function TurnSequences(offset: int, t: int): (int, int) {
    var s := Int32(offset + Int32(t * 2));
    (Int32(s - 1), s)
  }

  /** Everything the session writes; a turn that fails on the way uses up its numbers. */
  function Written(offset: int, turns: seq<bool>): seq<int> {
    if turns == [] then [] else
      var n := |turns|;
      var pair := TurnSequences(offset, n);
      Written(offset, turns[..n - 1]) + if turns[n - 1] then [pair.0, pair.1] else []
  }

  /** runLoop: one iteration per message; `turns` says which ones got as far as ingesting. */
  method RunLoop(seqOffset: int, turns: seq<bool>) returns (written: seq<int>)
    ensures written == Written(seqOffset, turns)
  {
    var turn := 0;
    written := [];
    while turn < |turns|
      invariant 0 <= turn <= |turns|
      invariant written == Written(seqOffset, turns[..turn])
    {
      turn := turn + 1;
      assert turns[..turn][..turn - 1] == turns[..turn - 1];
      if !turns[turn - 1] {
        continue;
      }
      var s := Int32(seqOffset + Int32(turn * 2));
      written := written + [Int32(s - 1), s];
    }
    assert turns[..|turns|] == turns;
  }

  lemma {:induction false} MaxSeqBounds(ns: seq<int>)
    ensures MaxSeq(ns) >= 0 && (forall n | n in ns :: n <= MaxSeq(ns)) && (MaxSeq(ns) == 0 || MaxSeq(ns) in ns)
  {
    if ns != [] {
      MaxSeqBounds(ns[..|ns| - 1]);
      assert ns == ns[..|ns| - 1] + [ns[|ns| - 1]];
    }
  }

  predicate Below(db: Db, doc: Id, bound: int) {
    forall c | c in db.chunks && db.chunks[c].doc == doc :: db.chunks[c].sequence <= bound
  }

  lemma VisibleHasActive(db: Db, doc: Id, r: Id)
    requires r in ActiveIn(db, doc)
    ensures db.chunks[r].sequence in Visible(db, doc)
  {
    var ids := ListByDocument(db, doc);
    assert r in ids;
    var i :| 0 <= i < |ids| && ids[i] == r;
    assert Visible(db, doc)[i] == db.chunks[r].sequence;
  }

  /** What a resumed session is shown bounds every chunk of the document, the compacted
      ones it is not shown included. */
  lemma VisibleBoundsHidden(db: Db, doc: Id)
    requires Grounded(db) && Climbing(db)
    ensures Below(db, doc, MaxSeq(Visible(db, doc)))
  {
    MaxSeqBounds(Visible(db, doc));
    forall c | c in db.chunks && db.chunks[c].doc == doc
      ensures db.chunks[c].sequence <= MaxSeq(Visible(db, doc))
    {
      RootIsHigher(db, c);
      VisibleHasActive(db, doc, Root(db, c));
    }
  }

  lemma Int32InRange(x: int)
    requires -0x8000_0000 <= x <= MAX_INT32
    ensures Int32(x) == x
  {
  }

  lemma TurnInRange(top: int, t: int)
    requires -1 <= top && 1 <= t && top + 1 + 2 * t <= MAX_INT32
    ensures TurnSequences(Int32(top + 1), t) == (top + 2 * t, top + 1 + 2 * t)
  {
    Int32InRange(top + 1);
    Int32InRange(t * 2);
    Int32InRange(top + 1 + t * 2);
    Int32InRange(top + t * 2);
  }

  /** Strictly increasing, above `low` and at most `high`. */
  predicate ClimbsWithin(w: seq<int>, low: int, high: int) {
    && (forall i | 0 <= i < |w| :: low < w[i] <= high)
    && (forall i, j | 0 <= i < j < |w| :: w[i] < w[j])
  }

  lemma {:induction false} WrittenClimbs(top: int, turns: seq<bool>)
    requires -1 <= top && top + 1 + 2 * |turns| <= MAX_INT32
    ensures ClimbsWithin(Written(Int32(top + 1), turns), top, top + 1 + 2 * |turns|)
  {
    if turns != [] {
      var n, offset := |turns|, Int32(top + 1);
      var before, last := Written(offset, turns[..n - 1]), top + 1 + 2 * n;
      WrittenClimbs(top, turns[..n - 1]);
      assert ClimbsWithin(before, top, last - 2);
      TurnInRange(top, n);
      assert Written(offset, turns) == before + if turns[n - 1] then [last - 1, last] else [];
    }
  }

  /** A turn writes above the resumed top exactly while int32 does not overflow. */
  lemma TurnAboveIff(top: int, t: int)
    requires -1 <= top <= MAX_INT32 && 1 <= t && 2 * t <= MAX_INT32
    ensures var (user, assistant) := TurnSequences(Int32(top + 1), t);
            (top < user && user < assistant) <==> top + 1 + 2 * t <= MAX_INT32
  {
  }

  /** The turn whose pair of numbers contains `x`, in a session that writes above `top`. */
  function TurnOf(top: int, x: int): int {
    (x - top) / 2
  }

  /** A number is written exactly when it is one of the turns' and that turn ingests. */
  lemma {:induction false} WrittenIff(top: int, turns: seq<bool>, x: int)
    requires -1 <= top && top + 1 + 2 * |turns| <= MAX_INT32
    ensures x in Written(Int32(top + 1), turns) <==> 1 <= TurnOf(top, x) <= |turns| && turns[TurnOf(top, x) - 1]
  {
    if turns != [] {
      var n := |turns|;
      WrittenIff(top, turns[..n - 1], x);
      TurnInRange(top, n);
      assert TurnOf(top, x) == n <==> x == top + 2 * n || x == top + 1 + 2 * n;
    }
  }

  /** The document holds a chunk above `top`; or it is empty, and the session a new one. */
  predicate Overtaken(db: Db, doc: Id, top: int) {
    (exists c :: c in ChunksOf(db, doc) && db.chunks[c].sequence > top) || (ChunksOf(db, doc) == {} && top == -1)
  }

  /** The number a summary would get now is above all of the session's own but its later
      turns' exactly when the document is overtaken. */
  lemma OvertakenIff(db: Db, doc: Id, top: int)
    requires -1 <= top
    ensures Overtaken(db, doc, top) <==> TurnOf(top, NextSequence(db, doc)) >= 1
  {
    if ChunksOf(db, doc) != {} {
      var d :| d in ChunksOf(db, doc) && NextSequence(db, doc) == db.chunks[d].sequence + 1;
      if c :| c in ChunksOf(db, doc) && db.chunks[c].sequence > top {
        assert db.chunks[c].sequence < NextSequence(db, doc);
      }
    }
  }

  /** A compaction at any moment of a session, resumed at `top` or new (`top` being -1): its
      summary has the same number as a chunk the session writes exactly when the document
      holds a chunk above `top` by then and the turn that number belongs to ingests. */
  lemma SummaryCollidesIff(db: Db, doc: Id, top: int, turns: seq<bool>)
    requires -1 <= top && top + 1 + 2 * |turns| <= MAX_INT32
    ensures var t := TurnOf(top, NextSequence(db, doc));
            NextSequence(db, doc) in Written(Int32(top + 1), turns) <==> Overtaken(db, doc, top) && t <= |turns| && t >= 1 && turns[t - 1]
  {
    WrittenIff(top, turns, NextSequence(db, doc));
    OvertakenIff(db, doc, top);
  }

  /** So it is right after a turn: the summary takes the very number the next turn writes. */
  lemma SummaryTakesTheNextNumber(db: Db, doc: Id, top: int, t: int)
    requires -1 <= top && 1 < t && top + 1 + 2 * t <= MAX_INT32
    requires Below(db, doc, TurnSequences(Int32(top + 1), t - 1).1)
    requires exists c :: c in ChunksOf(db, doc) && db.chunks[c].sequence == TurnSequences(Int32(top + 1), t - 1).1
    ensures NextSequence(db, doc) == TurnSequences(Int32(top + 1), t).0
  {
    TurnInRange(top, t - 1);
    TurnInRange(top, t);
    var c :| c in ChunksOf(db, doc) && db.chunks[c].sequence == TurnSequences(Int32(top + 1), t - 1).1;
    var d :| d in ChunksOf(db, doc) && NextSequence(db, doc) == db.chunks[d].sequence + 1;
  }

  function Top(db: Db, doc: Id): (top: int)
    ensures top >= 0
  {
    MaxSeqBounds(Visible(db, doc));
    MaxSeq(Visible(db, doc))
  }

  predicate SessionClimbs(now: Db, doc: Id, turns: seq<bool>) {
    Below(now, doc, Top(now, doc)) &&
    ClimbsWithin(Written(Int32(Top(now, doc) + 1), turns), Top(now, doc), Top(now, doc) + 1 + 2 * |turns|)
  }

  lemma SessionClimbsOver(now: Db, doc: Id, turns: seq<bool>)
    requires Grounded(now) && Climbing(now) && Top(now, doc) + 1 + 2 * |turns| <= MAX_INT32
    ensures SessionClimbs(now, doc, turns)
  {
    VisibleBoundsHidden(now, doc);
    WrittenClimbs(Top(now, doc), turns);
  }

  /** A session resumed after any history of requests writes strictly increasing
      sequences above every sequence the document holds, hidden or not. */
  lemma ResumedSessionClimbs(db: Db, history: seq<Request>, doc: Id, turns: seq<bool>)
    requires Sound(db) && Climbing(db) && AllAdmissible(db, history) && AllSameDocument(db, history)
    requires Top(ServeAll(db, history), doc) + 1 + 2 * |turns| <= MAX_INT32
    ensures SessionClimbs(ServeAll(db, history), doc, turns)
  {
    ParentsAlwaysClimb(db, history);
    SessionClimbsOver(ServeAll(db, history), doc, turns);
  }
}

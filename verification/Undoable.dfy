/** A compaction can be undone: over every interleaving in which nobody deletes a summary
    being written, a compacted chunk's parent has a compaction record, or is about to get
    it, unless the compaction was stopped at that very point. */
module Undoable {
  import opened Tables
  import opened Calls
  import opened Interleaving
  import opened Effects
  import opened Protocol

  predicate IsRecording(w: World, k: nat, s: Id) {
    k in w.calls && w.calls[k].Recording? && w.calls[k].summary == s
  }

  /** The summary has its record, some call is about to write it, or that call was stopped. */
  predicate Accounted(w: World, lost: set<Id>, s: Id) {
    RecordsOf(w.db, s) != {} || (exists k | k in w.calls :: IsRecording(w, k, s)) || s in lost
  }

  predicate Tracked(w: World, lost: set<Id>) {
    forall c | c in w.db.chunks && w.db.chunks[c].compactedBy.Some? :: Accounted(w, lost, w.db.chunks[c].compactedBy.value)
  }

  /** An uncompaction holds a record of its own summary. */
  predicate HoldsOwn(db: Db, call: Call) {
    call.Restoring? || call.Unstoring? || call.Unrecording? ==>
      call.record < db.next && (call.record in db.records ==> db.records[call.record].summary == call.summary)
  }

  predicate AllHoldOwn(w: World) {
    forall k | k in w.calls :: HoldsOwn(w.db, w.calls[k])
  }

  /** What stopping a call between marking and recording loses. */
  function LostBy(w: World, e: Event): set<Id>
    requires Enabled(w, e)
  {
    if e.Stop? && w.calls[e.k].Recording? then {w.calls[e.k].summary} else {}
  }

  // ----- records ---------------------------------------------------------------------------

  /** Records are not changed, and their ids not used again. */
  predicate RecordsKept(db: Db, db': Db) {
    db.next <= db'.next && forall r | r in db'.records :: (r in db.records && db'.records[r] == db.records[r]) || db.next <= r
  }

  lemma AdvanceKeepsRecords(db: Db, call: Call)
    ensures RecordsKept(db, Advance(db, call).0)
  {
  }

  lemma EventKeepsRecords(w: World, e: Event)
    requires Enabled(w, e)
    ensures RecordsKept(w.db, Apply(w, e).db)
  {
    if e.Run? {
      AdvanceKeepsRecords(w.db, w.calls[e.k]);
    }
  }

  lemma OtherHoldsOwn(db: Db, db': Db, call: Call)
    requires HoldsOwn(db, call) && RecordsKept(db, db')
    ensures HoldsOwn(db', call)
  {
  }

  lemma MoverHoldsOwn(db: Db, call: Call)
    requires RecordsBelow(db) && HoldsOwn(db, call)
    ensures HoldsOwn(Advance(db, call).0, Advance(db, call).1)
  {
  }

  lemma StepKeepsHolding(w: World, e: Event)
    requires RecordsBelow(w.db) && AllHoldOwn(w) && Enabled(w, e)
    ensures AllHoldOwn(Apply(w, e))
  {
    var w' := Apply(w, e);
    EventKeepsRecords(w, e);
    forall k | k in w'.calls
      ensures HoldsOwn(w'.db, w'.calls[k])
    {
      if e.Run? && e.k == k {
        MoverHoldsOwn(w.db, w.calls[k]);
      } else if k in w.calls {
        OtherHoldsOwn(w.db, w'.db, w.calls[k]);
      }
    }
  }

  // ----- a summary with children keeps its record --------------------------------------------

  lemma OnlyUndoingDropsRecords(db: Db, call: Call, r: Id)
    requires r in db.records && r < db.next && !call.Unrecording? && !call.Deleting?
    ensures r in Advance(db, call).0.records && Advance(db, call).0.records[r] == db.records[r]
  {
  }

  lemma RecordStaysWithChildren(db: Db, call: Call, s: Id)
    requires RecordsBelow(db) && HoldsOwn(db, call) && UndoingOk(db, call) && Children(db, s) != {}
    requires RecordsOf(db, s) != {}
    ensures RecordsOf(Advance(db, call).0, s) != {}
  {
    var r :| r in RecordsOf(db, s);
    var db' := Advance(db, call).0;
    if call.Unrecording? || call.Deleting? {
      assert call.summary != s;
    } else {
      OnlyUndoingDropsRecords(db, call, r);
    }
    assert r in RecordsOf(db', s);
  }

  lemma EnvironmentKeepsRecord(w: World, e: Event, s: Id)
    requires Grounded(w.db) && Enabled(w, e) && !e.Run? && Children(w.db, s) != {} && RecordsOf(w.db, s) != {}
    ensures RecordsOf(Apply(w, e).db, s) != {}
  {
    var r :| r in RecordsOf(w.db, s);
    assert s !in Children(w.db, s);
    assert r in RecordsOf(Apply(w, e).db, s);
  }

  /** Recording a live summary leaves it a record. */
  lemma RecordingRecords(db: Db, call: Call)
    requires call.Recording? && call.summary in db.chunks
    ensures RecordsOf(Advance(db, call).0, call.summary) != {}
  {
    assert db.next in RecordsOf(Advance(db, call).0, call.summary);
  }

  // ----- every step keeps track ------------------------------------------------------------------

  /** What was accounted for stays so, as long as some chunk points at it. */
  lemma AccountedStays(w: World, e: Event, lost: set<Id>, c: Id, s: Id)
    requires Ordered(w) && AllHoldOwn(w) && Enabled(w, e) && Accounted(w, lost, s)
    requires c in w.db.chunks && w.db.chunks[c].compactedBy == Some(s)
    ensures Accounted(Apply(w, e), lost + LostBy(w, e), s)
  {
    assert c in Children(w.db, s) && s !in Children(w.db, s);
    if RecordsOf(w.db, s) != {} {
      if e.Run? {
        RecordStaysWithChildren(w.db, w.calls[e.k], s);
      } else {
        EnvironmentKeepsRecord(w, e, s);
      }
    } else if k :| k in w.calls && IsRecording(w, k, s) {
      if e.Run? && e.k == k {
        RecordingRecords(w.db, w.calls[k]);
      } else if !(e.Stop? && e.k == k) {
        assert IsRecording(Apply(w, e), k, s);
      }
    }
  }

  lemma NewParentIsAccounted(w: World, e: Event, lost: set<Id>, c: Id)
    requires Ordered(w) && Enabled(w, e) && c in Apply(w, e).db.chunks && Apply(w, e).db.chunks[c].compactedBy.Some?
    requires c !in w.db.chunks || w.db.chunks[c].compactedBy != Apply(w, e).db.chunks[c].compactedBy
    ensures Accounted(Apply(w, e), lost, Apply(w, e).db.chunks[c].compactedBy.value)
  {
    if c in w.db.chunks {
      ParentsChangeOnlyHands(w, e, c);
      assert IsRecording(Apply(w, e), e.k, Apply(w, e).db.chunks[c].compactedBy.value);
    } else {
      NewRowsAreActive(w, e, c);
    }
  }

  lemma StatementsAddActive(db: Db, call: Call, c: Id)
    requires c !in db.chunks && c in Advance(db, call).0.chunks
    ensures Advance(db, call).0.chunks[c].compactedBy.None?
  {
    if !WritesChunks(call) {
      OtherStatementsKeepChunks(db, call);
    }
  }

  lemma NewRowsAreActive(w: World, e: Event, c: Id)
    requires Enabled(w, e) && c !in w.db.chunks && c in Apply(w, e).db.chunks
    ensures Apply(w, e).db.chunks[c].compactedBy.None?
  {
    if e.Run? {
      StatementsAddActive(w.db, w.calls[e.k], c);
    }
  }

  lemma StepKeepsTracked(w: World, e: Event, lost: set<Id>)
    requires Ordered(w) && AllHoldOwn(w) && Enabled(w, e) && Tracked(w, lost)
    ensures Tracked(Apply(w, e), lost + LostBy(w, e))
  {
    var w' := Apply(w, e);
    forall c | c in w'.db.chunks && w'.db.chunks[c].compactedBy.Some?
      ensures Accounted(w', lost + LostBy(w, e), w'.db.chunks[c].compactedBy.value)
    {
      var s := w'.db.chunks[c].compactedBy.value;
      if c in w.db.chunks && w.db.chunks[c].compactedBy == Some(s) {
        AccountedStays(w, e, lost, c, s);
      } else {
        NewParentIsAccounted(w, e, lost + LostBy(w, e), c);
      }
    }
  }

  function LostIn(w: World, run: seq<Event>): set<Id>
    requires Legal(w, run)
    decreases |run|
  {
    if run == [] then {} else LostBy(w, run[0]) + LostIn(Apply(w, run[0]), run[1..])
  }

  lemma StepKeepsOrdered(w: World, e: Event)
    requires Ordered(w) && Enabled(w, e) && Courteous(w, e)
    ensures Ordered(Apply(w, e))
  {
    if e.Run? {
      RunKeepsOrdered(w, e.k);
    } else {
      EnvironmentKeepsOrdered(w, e);
    }
  }

  /** Over every courteous interleaving each compacted chunk's parent stays accounted for. */
  lemma {:induction false} CompactionsStayTracked(w: World, run: seq<Event>, lost: set<Id>)
    requires Ordered(w) && AllHoldOwn(w) && Tracked(w, lost) && Legal(w, run) && AlwaysCourteous(w, run)
    ensures Ordered(Exec(w, run)) && AllHoldOwn(Exec(w, run)) && Tracked(Exec(w, run), lost + LostIn(w, run))
    decreases |run|
  {
    if run == [] {
      assert lost + LostIn(w, run) == lost;
    } else {
      StepKeepsOrdered(w, run[0]);
      StepKeepsHolding(w, run[0]);
      StepKeepsTracked(w, run[0], lost);
      CompactionsStayTracked(Apply(w, run[0]), run[1..], lost + LostBy(w, run[0]));
      assert lost + LostIn(w, run) == lost + LostBy(w, run[0]) + LostIn(Apply(w, run[0]), run[1..]);
    }
  }

  /** Once every call has ended, each compacted chunk comes back by undoing its parent,
      unless its compaction was stopped between marking and recording. */
  lemma CompactionCanBeUndone(w: World, lost: set<Id>, c: Id)
    requires Ordered(w) && Tracked(w, lost) && forall k | k in w.calls :: w.calls[k].Done?
    requires c in w.db.chunks && w.db.chunks[c].compactedBy.Some? && w.db.chunks[c].compactedBy.value !in lost
    ensures var (after, outcome) := Finish(w.db, UncompactCall(w.db.chunks[c].compactedBy.value, true));
            outcome.Restored? && c in outcome.ids && IsActive(after, c)
  {
    var s := w.db.chunks[c].compactedBy.value;
    assert Accounted(w, lost, s);
    FinishUncompaction(w.db, s, true);
    assert RecordFor(w.db, s).Some? && c in Children(w.db, s) && c != s;
  }
}

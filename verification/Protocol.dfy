/** The statement order alone keeps every foreign key: as long as nobody deletes a
    summary while its compaction is still being written, no statement of any Compact,
    CompactionWorker.Process or Uncompact is ever refused for a missing row or a row
    still pointed at. Also, how a chunk's parent can change in one step. */
module Protocol {
  import opened Tables
  import opened Calls
  import opened Interleaving

  /** The summary exists and its compaction record does not yet. */
  predicate Pending(call: Call) {
    call.Storing? || call.Tagging? || call.MovingSource? || call.MovingTarget? || call.Dropping? || call.Marking? || call.Recording?
  }

  /** An uncompaction that has read its record and has not deleted the summary. */
  predicate Undoing(call: Call) {
    call.Restoring? || call.Unstoring? || call.Unrecording? || call.Deleting?
  }

  predicate PendingOk(db: Db, call: Call) {
    Pending(call) ==> call.summary in db.chunks && call.summary < db.next && RecordsOf(db, call.summary) == {}
  }

  predicate UndoingOk(db: Db, call: Call) {
    Undoing(call) ==> call.summary < db.next && (!call.Restoring? ==> Children(db, call.summary) == {})
  }

  /** At most one writer per summary, and nobody undoes a summary being written. */
  predicate Apart(a: Call, b: Call) {
    (Pending(a) && (Pending(b) || Undoing(b)) ==> a.summary != b.summary) &&
    (Pending(b) && (Pending(a) || Undoing(a)) ==> a.summary != b.summary)
  }

  predicate RecordsBelow(db: Db) {
    forall r | r in db.records :: r < db.next && db.records[r].summary < db.next
  }

  predicate Ordered(w: World) {
    && Grounded(w.db)
    && RecordsBelow(w.db)
    && (forall k | k in w.calls :: PendingOk(w.db, w.calls[k]) && UndoingOk(w.db, w.calls[k]) && CallOk(w.db, w.calls[k]))
    && (forall j, k | j in w.calls && k in w.calls && j != k :: Apart(w.calls[j], w.calls[k]))
  }

  /** Nobody deletes the summary of a compaction that is still being written. */
  predicate Courteous(w: World, e: Event) {
    e.Delete? ==> forall k | k in w.calls && Pending(w.calls[k]) :: w.calls[k].summary != e.id
  }

  /** What one statement of a call may do to a summary `s` that is not its own. */
  lemma OthersUntouched(db: Db, call: Call, s: Id)
    requires RecordsBelow(db) && s < db.next
    requires PendingOk(db, call) && UndoingOk(db, call)
    requires Pending(call) || Undoing(call) ==> call.summary != s
    ensures var db' := Advance(db, call).0;
            && (s in db.chunks ==> s in db'.chunks)
            && (RecordsOf(db, s) == {} ==> RecordsOf(db', s) == {})
  {
  }

  lemma ChildrenStayGone(db: Db, call: Call, s: Id)
    requires Children(db, s) == {} && s < db.next
    requires Pending(call) ==> call.summary != s
    ensures Children(Advance(db, call).0, s) == {}
  {
    var db' := Advance(db, call).0;
    forall c | c in db'.chunks
      ensures db'.chunks[c].compactedBy != Some(s)
    {
      if c in db.chunks {
        assert c !in Children(db, s);
      }
    }
  }

  lemma RecordsStayBelow(db: Db, call: Call)
    requires RecordsBelow(db) && CallOk(db, call)
    ensures RecordsBelow(Advance(db, call).0)
  {
  }

  lemma CreatedIsPending(db: Db, call: Call)
    requires RecordsBelow(db) && call.Creating?
    ensures PendingOk(Advance(db, call).0, Advance(db, call).1)
  {
    assert forall r | r in db.records :: db.records[r].summary != db.next;
  }

  lemma PendingStays(db: Db, call: Call)
    requires Pending(call) && PendingOk(db, call)
    ensures PendingOk(Advance(db, call).0, Advance(db, call).1)
  {
  }

  lemma OthersAreNotPending(db: Db, call: Call)
    requires !Pending(call) && !call.Creating?
    ensures !Pending(Advance(db, call).1)
  {
  }

  lemma MoverStaysPending(db: Db, call: Call)
    requires RecordsBelow(db) && PendingOk(db, call)
    ensures PendingOk(Advance(db, call).0, Advance(db, call).1)
  {
    if call.Creating? {
      CreatedIsPending(db, call);
    } else if Pending(call) {
      PendingStays(db, call);
    } else {
      OthersAreNotPending(db, call);
    }
  }

  lemma RestoredIsChildless(db: Db, call: Call)
    requires call.Restoring? && UndoingOk(db, call)
    ensures UndoingOk(Advance(db, call).0, Advance(db, call).1)
  {
  }

  lemma LookedUpIsBelow(db: Db, call: Call)
    requires RecordsBelow(db) && call.Looking?
    ensures UndoingOk(Advance(db, call).0, Advance(db, call).1)
  {
  }

  lemma OthersAreNotUndoing(db: Db, call: Call)
    requires !Undoing(call) && !call.Looking?
    ensures !Undoing(Advance(db, call).1)
  {
  }

  lemma MoverStaysUndoing(db: Db, call: Call)
    requires RecordsBelow(db) && UndoingOk(db, call)
    ensures UndoingOk(Advance(db, call).0, Advance(db, call).1)
  {
    if call.Restoring? {
      RestoredIsChildless(db, call);
    } else if Undoing(call) {
      ChildrenStayGone(db, call, call.summary);
    } else if call.Looking? {
      LookedUpIsBelow(db, call);
    } else {
      OthersAreNotUndoing(db, call);
    }
  }

  lemma MoverStaysApart(db: Db, call: Call, other: Call)
    requires PendingOk(db, other) && UndoingOk(db, other) && Apart(call, other)
    ensures Apart(Advance(db, call).1, other)
  {
  }

  lemma RunKeepsOrdered(w: World, k: nat)
    requires Ordered(w) && Enabled(w, Run(k))
    ensures Ordered(Apply(w, Run(k)))
  {
    var call := w.calls[k];
    var (db', call') := Advance(w.db, call);
    AdvanceKeepsGrounded(w.db, call);
    AdvanceKeepsCallOk(w.db, call);
    RecordsStayBelow(w.db, call);
    MoverStaysPending(w.db, call);
    MoverStaysUndoing(w.db, call);
    forall j | j in w.calls && j != k
      ensures PendingOk(db', w.calls[j]) && UndoingOk(db', w.calls[j]) && CallOk(db', w.calls[j]) && Apart(call', w.calls[j])
    {
      var other := w.calls[j];
      assert Apart(call, other) && CallOk(w.db, other);
      MoverStaysApart(w.db, call, other);
      if Pending(other) {
        OthersUntouched(w.db, call, other.summary);
      } else if Undoing(other) && !other.Restoring? {
        ChildrenStayGone(w.db, call, other.summary);
      }
    }
  }

  /** What the environment may do to a summary. */
  lemma EnvironmentKeepsRows(w: World, e: Event, s: Id)
    requires RecordsBelow(w.db) && Enabled(w, e) && !e.Run? && s < w.db.next
    ensures var db' := Apply(w, e).db;
            && w.db.next <= db'.next
            && (s in w.db.chunks && e != Delete(s) ==> s in db'.chunks)
            && (RecordsOf(w.db, s) == {} ==> RecordsOf(db', s) == {})
            && (Children(w.db, s) == {} ==> Children(db', s) == {})
  {
    var db' := Apply(w, e).db;
    if Children(w.db, s) == {} {
      forall c | c in db'.chunks
        ensures db'.chunks[c].compactedBy != Some(s)
      {
        if c in w.db.chunks {
          assert c !in Children(w.db, s);
        }
      }
    }
  }

  lemma EnvironmentKeepsRecords(w: World, e: Event)
    requires RecordsBelow(w.db) && Enabled(w, e) && !e.Run?
    ensures RecordsBelow(Apply(w, e).db)
  {
  }

  lemma EnvironmentKeepsCall(w: World, e: Event, k: nat)
    requires Ordered(w) && Enabled(w, e) && Courteous(w, e) && !e.Run? && k in w.calls
    ensures PendingOk(Apply(w, e).db, w.calls[k]) && UndoingOk(Apply(w, e).db, w.calls[k])
  {
    if Pending(w.calls[k]) || Undoing(w.calls[k]) {
      EnvironmentKeepsRows(w, e, w.calls[k].summary);
    }
  }

  /** The environment changes no call; a call that begins is neither pending nor undoing. */
  lemma EnvironmentKeepsCalls(w: World, e: Event, k: nat)
    requires Enabled(w, e) && !e.Run? && k in Apply(w, e).calls
    ensures var call := Apply(w, e).calls[k];
            (k in w.calls && call == w.calls[k]) || (!Pending(call) && !Undoing(call))
  {
  }

  lemma EnvironmentKeepsApart(w: World, e: Event, j: nat, k: nat)
    requires Enabled(w, e) && !e.Run? && j in Apply(w, e).calls && k in Apply(w, e).calls && j != k
    requires j in w.calls && k in w.calls ==> Apart(w.calls[j], w.calls[k])
    ensures Apart(Apply(w, e).calls[j], Apply(w, e).calls[k])
  {
    EnvironmentKeepsCalls(w, e, j);
    EnvironmentKeepsCalls(w, e, k);
  }

  lemma EnvironmentKeepsOrdered(w: World, e: Event)
    requires Ordered(w) && Enabled(w, e) && Courteous(w, e) && !e.Run?
    ensures Ordered(Apply(w, e))
  {
    var w' := Apply(w, e);
    assert Forest(w') by { StepKeepsForest(w, e); }
    EnvironmentKeepsRecords(w, e);
    forall k | k in w'.calls
      ensures PendingOk(w'.db, w'.calls[k]) && UndoingOk(w'.db, w'.calls[k])
    {
      EnvironmentKeepsCalls(w, e, k);
      if k in w.calls {
        EnvironmentKeepsCall(w, e, k);
      }
    }
    forall j, k | j in w'.calls && k in w'.calls && j != k
      ensures Apart(w'.calls[j], w'.calls[k])
    {
      EnvironmentKeepsApart(w, e, j, k);
    }
  }

  /** No statement of a call is ever refused for a foreign key. */
  lemma StatementsFindTheirRows(db: Db, call: Call)
    requires Grounded(db) && PendingOk(db, call) && UndoingOk(db, call) && !call.Done?
    ensures Advance(db, call).1 != Done(Refused(ForeignKey))
  {
  }

  /** Some statement of the run was refused for a foreign key. */
  predicate Faulted(w: World, run: seq<Event>)
    requires Legal(w, run)
    decreases |run|
  {
    run != [] &&
    ((run[0].Run? && Advance(w.db, w.calls[run[0].k]).1 == Done(Refused(ForeignKey)))
     || Faulted(Apply(w, run[0]), run[1..]))
  }

  predicate AlwaysCourteous(w: World, run: seq<Event>)
    requires Legal(w, run)
    decreases |run|
  {
    run == [] || (Courteous(w, run[0]) && AlwaysCourteous(Apply(w, run[0]), run[1..]))
  }

  lemma {:induction false} ForeignKeysNeverFire(w: World, run: seq<Event>)
    requires Ordered(w) && Legal(w, run) && AlwaysCourteous(w, run)
    ensures !Faulted(w, run) && Ordered(Exec(w, run))
    decreases |run|
  {
    if run != [] {
      if run[0].Run? {
        RunKeepsOrdered(w, run[0].k);
        StatementsFindTheirRows(w.db, w.calls[run[0].k]);
      } else {
        EnvironmentKeepsOrdered(w, run[0]);
      }
      ForeignKeysNeverFire(Apply(w, run[0]), run[1..]);
    }
  }

  lemma StatementChangesParent(db: Db, call: Call, c: Id)
    requires Grounded(db) && c in db.chunks && c in Advance(db, call).0.chunks
    ensures var was, now := db.chunks[c].compactedBy, Advance(db, call).0.chunks[c].compactedBy;
            || was == now
            || (was.None? && call.Marking? && c in call.plan.sources && now == Some(call.summary))
            || (now.None? && call.Restoring? && was == Some(call.summary))
  {
    if !WritesChunks(call) {
      OtherStatementsKeepChunks(db, call);
    }
  }

  /** A parent is never overwritten: it is set only on an active source by the marking
      statement of its own compaction, and cleared only by undoing that summary. */
  lemma ParentsChangeOnlyHands(w: World, e: Event, c: Id)
    requires Forest(w) && Enabled(w, e) && c in w.db.chunks && c in Apply(w, e).db.chunks
    ensures var was, now := w.db.chunks[c].compactedBy, Apply(w, e).db.chunks[c].compactedBy;
            was != now ==>
              && e.Run?
              && var call := w.calls[e.k];
                 || (was.None? && call.Marking? && c in call.plan.sources && now == Some(call.summary))
                 || (now.None? && call.Restoring? && was == Some(call.summary))
  {
    if e.Run? {
      StatementChangesParent(w.db, w.calls[e.k], c);
    }
  }
}

/** The job queue under any number of pollers. A claim is a transaction that locks a row,
    passing over rows that others have locked, and then commits; between the two the row
    still reads `queued` to everyone else. Status updates afterwards carry no guard. */
module Queue {
  import opened Tables

  /** A poller's place in tryProcess; `budget` is how many jobs its worker still inserts. */
  datatype Poller = Idle | Locked(job: nat) | Working(job: nat, budget: nat)

  /** `handed` lists the jobs in the order they were handed out; `orphans` are the jobs
      whose final status update was lost. */
  datatype Pool = Pool(jobs: seq<Job>, pollers: seq<Poller>, handed: seq<nat>, orphans: set<nat>)

  datatype Event =
    | Lock(p: nat, job: nat)
    | Commit(p: nat, budget: nat)
    | Rollback(p: nat)
    | Spawn(p: nat, doc: Option<Id>, created: int)
    | Finish(p: nat, ok: bool)
    | Lose(p: nat)
    | Submit(doc: Option<Id>, kind: JobKind, created: int)

  predicate Holds(poller: Poller, j: nat) {
    !poller.Idle? && poller.job == j
  }

  predicate IsLocked(m: Pool, j: nat) {
    exists p :: 0 <= p < |m.pollers| && m.pollers[p] == Locked(j)
  }

  predicate Claimable(m: Pool, j: nat) {
    j < |m.jobs| && m.jobs[j].status.Queued? && !IsLocked(m, j)
  }

  predicate Waiting(jobs: seq<Job>, kind: JobKind, j: nat) {
    j < |jobs| && jobs[j].status.Queued? && jobs[j].kind == kind
  }

  predicate IsOldest(jobs: seq<Job>, kind: JobKind, j: nat) {
    Waiting(jobs, kind, j) && forall i: nat | i < |jobs| && Waiting(jobs, kind, i) :: jobs[j].created <= jobs[i].created
  }

  /** What a worker of this kind may insert, and at most how many. */
  function Next(kind: JobKind): Option<JobKind> {
    match kind
    case Extraction => Some(Chunking)
    case Chunking => Some(Embedding)
    case MemoryMessages => Some(MemoryMaintenance)
    case _ => None
  }

  predicate WithinBudget(kind: JobKind, budget: nat) {
    match kind
    case Extraction => budget <= 1
    case Chunking => budget <= 1
    case MemoryMessages => true
    case _ => budget == 0
  }

  predicate Enabled(m: Pool, e: Event) {
    match e
    case Lock(p, j) =>
      && p < |m.pollers| && m.pollers[p].Idle? && Claimable(m, j)
      && forall i: nat | i < |m.jobs| :: Claimable(m, i) && m.jobs[i].kind == m.jobs[j].kind ==> m.jobs[j].created <= m.jobs[i].created
    case Commit(p, budget) =>
      p < |m.pollers| && m.pollers[p].Locked? && m.pollers[p].job < |m.jobs| && WithinBudget(m.jobs[m.pollers[p].job].kind, budget)
    case Rollback(p) => p < |m.pollers| && m.pollers[p].Locked?
    case Spawn(p, _, _) =>
      && p < |m.pollers| && m.pollers[p].Working? && m.pollers[p].budget > 0
      && m.pollers[p].job < |m.jobs| && Next(m.jobs[m.pollers[p].job].kind).Some?
    case Finish(p, _) => p < |m.pollers| && m.pollers[p].Working? && m.pollers[p].job < |m.jobs|
    case Lose(p) => p < |m.pollers| && m.pollers[p].Working?
    case Submit(_, _, _) => true
  }

  function SetStatus(jobs: seq<Job>, j: nat, status: JobStatus): seq<Job>
    requires j < |jobs|
  {
    jobs[j := jobs[j].(status := status)]
  }

  function Apply(m: Pool, e: Event): Pool
    requires Enabled(m, e)
  {
    match e
    case Lock(p, j) => m.(pollers := m.pollers[p := Locked(j)])
    case Commit(p, budget) =>
      var j := m.pollers[p].job;
      m.(jobs := SetStatus(m.jobs, j, Running), pollers := m.pollers[p := Working(j, budget)], handed := m.handed + [j])
    case Rollback(p) => m.(pollers := m.pollers[p := Idle])
    case Spawn(p, doc, created) =>
      var Working(j, budget) := m.pollers[p];
      m.(jobs := m.jobs + [Job(doc, Next(m.jobs[j].kind).value, Queued, created)],
         pollers := m.pollers[p := Working(j, budget - 1)])
    case Finish(p, ok) =>
      m.(jobs := SetStatus(m.jobs, m.pollers[p].job, if ok then Completed else Failed), pollers := m.pollers[p := Idle])
    case Lose(p) => m.(pollers := m.pollers[p := Idle], orphans := m.orphans + {m.pollers[p].job})
    case Submit(doc, kind, created) => m.(jobs := m.jobs + [Job(doc, kind, Queued, created)])
  }

  // ----- exclusivity -----------------------------------------------------------------

  predicate PollerOk(m: Pool, poller: Poller) {
    match poller
    case Idle => true
    case Locked(j) => j < |m.jobs| && m.jobs[j].status.Queued?
    case Working(j, budget) => j < |m.jobs| && m.jobs[j].status.Running? && j !in m.orphans && WithinBudget(m.jobs[j].kind, budget)
  }

  predicate IsWorkedOn(m: Pool, j: nat) {
    exists p :: 0 <= p < |m.pollers| && m.pollers[p].Working? && m.pollers[p].job == j
  }

  predicate PollersOk(m: Pool) {
    forall p | 0 <= p < |m.pollers| :: PollerOk(m, m.pollers[p])
  }

  /** No two pollers hold the same job, locked or working. */
  predicate Exclusive(m: Pool) {
    forall p, q | 0 <= p < q < |m.pollers| && !m.pollers[p].Idle? && !m.pollers[q].Idle? :: m.pollers[p].job != m.pollers[q].job
  }

  /** No job was handed out twice, and exactly the jobs that were handed out left the queue. */
  predicate HandedOnce(m: Pool) {
    && (forall j | j in m.handed :: j < |m.jobs|)
    && (forall i, k | 0 <= i < k < |m.handed| :: m.handed[i] != m.handed[k])
    && (forall j: nat | j < |m.jobs| :: j in m.handed <==> !m.jobs[j].status.Queued?)
  }

  /** A running job is being worked on, unless its last status update was lost. */
  predicate RunningHeld(m: Pool) {
    && (forall j | j in m.orphans :: j < |m.jobs| && m.jobs[j].status.Running?)
    && (forall j: nat | j < |m.jobs| && m.jobs[j].status.Running? && j !in m.orphans :: IsWorkedOn(m, j))
  }

  predicate Safe(m: Pool) {
    PollersOk(m) && Exclusive(m) && HandedOnce(m) && RunningHeld(m)
  }

  /** Where a run begins: a table of queued jobs, every poller idle. */
  lemma FreshPoolIsSafe(m: Pool)
    requires (forall j: nat | j < |m.jobs| :: m.jobs[j].status.Queued?) && m.handed == [] && m.orphans == {}
    requires forall p | 0 <= p < |m.pollers| :: m.pollers[p].Idle?
    ensures Safe(m)
  {
  }

  lemma StepKeepsExclusive(m: Pool, e: Event)
    requires Exclusive(m) && Enabled(m, e) && PollersOk(m)
    requires forall p | 0 <= p < |m.pollers| && m.pollers[p].Working? :: !m.jobs[m.pollers[p].job].status.Queued?
    ensures Exclusive(Apply(m, e))
  {
    if e.Lock? {
      assert forall q | 0 <= q < |m.pollers| :: m.pollers[q] != Locked(e.job);
    }
  }

  lemma StepKeepsPollersOk(m: Pool, e: Event)
    requires Safe(m) && Enabled(m, e)
    ensures PollersOk(Apply(m, e))
  {
  }

  lemma StepKeepsHandedOnce(m: Pool, e: Event)
    requires Safe(m) && Enabled(m, e)
    ensures HandedOnce(Apply(m, e))
  {
    if e.Commit? {
      assert PollerOk(m, m.pollers[e.p]);
    } else if e.Finish? {
      assert PollerOk(m, m.pollers[e.p]);
    }
  }

  lemma StepKeepsRunningHeld(m: Pool, e: Event)
    requires PollersOk(m) && Exclusive(m) && RunningHeld(m) && Enabled(m, e)
    ensures RunningHeld(Apply(m, e))
  {
    var m' := Apply(m, e);
    forall j: nat | j < |m'.jobs| && m'.jobs[j].status.Running? && j !in m'.orphans
      ensures IsWorkedOn(m', j)
    {
      if e.Commit? && j == m.pollers[e.p].job {
        assert m'.pollers[e.p].Working?;
      } else {
        assert IsWorkedOn(m, j);
        var q :| 0 <= q < |m.pollers| && m.pollers[q].Working? && m.pollers[q].job == j;
        assert m'.pollers[q].Working? && m'.pollers[q].job == j;
      }
    }
    if e.Finish? || e.Commit? {
      assert PollerOk(m, m.pollers[e.p]);
    } else if e.Lose? {
      assert PollerOk(m, m.pollers[e.p]);
    }
  }

  lemma StepKeepsSafe(m: Pool, e: Event)
    requires Safe(m) && Enabled(m, e)
    ensures Safe(Apply(m, e))
  {
    assert forall p | 0 <= p < |m.pollers| :: PollerOk(m, m.pollers[p]);
    StepKeepsExclusive(m, e);
    StepKeepsPollersOk(m, e);
    StepKeepsHandedOnce(m, e);
    StepKeepsRunningHeld(m, e);
  }

  predicate Legal(m: Pool, run: seq<Event>)
    decreases |run|
  {
    run == [] || (Enabled(m, run[0]) && Legal(Apply(m, run[0]), run[1..]))
  }

  function Exec(m: Pool, run: seq<Event>): Pool
    requires Legal(m, run)
    decreases |run|
  {
    if run == [] then m else Exec(Apply(m, run[0]), run[1..])
  }

  function Rank(status: JobStatus): nat {
    match status
    case Queued => 0
    case Running => 1
    case Completed => 2
    case Failed => 2
  }

  /** A status only moves on: queued, running, then completed or failed for good. */
  predicate MovesOn(was: JobStatus, now: JobStatus) {
    Rank(was) < Rank(now) || was == now
  }

  predicate AllMoveOn(m: Pool, m': Pool) {
    |m.jobs| <= |m'.jobs| &&
    forall j: nat | j < |m.jobs| :: MovesOn(m.jobs[j].status, m'.jobs[j].status) && m'.jobs[j].kind == m.jobs[j].kind
  }

  /** UpdateStatus has no guard; that the poller holds the job is what makes it safe. */
  lemma StepMovesOn(m: Pool, e: Event)
    requires Safe(m) && Enabled(m, e)
    ensures AllMoveOn(m, Apply(m, e))
  {
    if e.Finish? || e.Commit? {
      assert PollerOk(m, m.pollers[e.p]);
    }
  }

  /** Whatever the pollers do: exclusive, handed out at most once, never moving back. */
  lemma {:induction false} QueueIsSafe(m: Pool, run: seq<Event>)
    requires Safe(m) && Legal(m, run)
    ensures Safe(Exec(m, run)) && AllMoveOn(m, Exec(m, run))
    decreases |run|
  {
    if run != [] {
      StepKeepsSafe(m, run[0]);
      StepMovesOn(m, run[0]);
      QueueIsSafe(Apply(m, run[0]), run[1..]);
    }
  }

  /** A running job has exactly one poller exactly when its update was not lost. */
  lemma OneHolderIff(m: Pool, j: nat)
    requires Safe(m) && j < |m.jobs| && m.jobs[j].status.Running?
    ensures j !in m.orphans <==> exists p :: 0 <= p < |m.pollers| && m.pollers[p].Working? && m.pollers[p].job == j
    ensures forall p, q | 0 <= p < |m.pollers| && 0 <= q < |m.pollers| && Holds(m.pollers[p], j) && Holds(m.pollers[q], j) :: p == q
  {
    if j !in m.orphans {
      assert IsWorkedOn(m, j);
    } else {
      assert forall p | 0 <= p < |m.pollers| :: PollerOk(m, m.pollers[p]);
    }
  }
}

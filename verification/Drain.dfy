/** Without new submissions every run of the pool ends, with every job completed or
    failed: a lexicographic measure over the levels of the job types. */
module Drain {
  import opened Ordering
  import opened Tables
  import opened Queue

  /** A worker only inserts jobs of a strictly lower level. */
  function Level(kind: JobKind): nat {
    match kind
    case Extraction => 3
    case Chunking => 2
    case MemoryMessages => 2
    case Embedding => 1
    case MemoryMaintenance => 1
    case Compaction => 1
  }

  /** The pool's own steps: no submission from outside, no claim rolled back. */
  predicate IsPoolStep(e: Event) {
    !e.Submit? && !e.Rollback?
  }

  function QueuedAt(jobs: seq<Job>, level: nat): nat {
    if jobs == [] then 0
    else
      var last := jobs[|jobs| - 1];
      QueuedAt(jobs[..|jobs| - 1], level) + if last.status.Queued? && Level(last.kind) == level then 1 else 0
  }

  function Weight(jobs: seq<Job>, poller: Poller, level: nat): nat {
    if poller.Working? && poller.job < |jobs| && Level(jobs[poller.job].kind) == level then 1 + poller.budget else 0
  }

  /** What the working pollers still owe at a level: to finish, and to insert. */
  function OwedAt(jobs: seq<Job>, pollers: seq<Poller>, level: nat): nat {
    if pollers == [] then 0
    else OwedAt(jobs, pollers[..|pollers| - 1], level) + Weight(jobs, pollers[|pollers| - 1], level)
  }

  function IdleCount(pollers: seq<Poller>): nat {
    if pollers == [] then 0
    else IdleCount(pollers[..|pollers| - 1]) + if pollers[|pollers| - 1].Idle? then 1 else 0
  }

  // ----- how the three counts react to one update ----------------------------------------

  lemma {:induction false} QueuedUpdate(jobs: seq<Job>, j: nat, job: Job, level: nat)
    requires j < |jobs|
    ensures QueuedAt(jobs[j := job], level) + (if jobs[j].status.Queued? && Level(jobs[j].kind) == level then 1 else 0)
         == QueuedAt(jobs, level) + (if job.status.Queued? && Level(job.kind) == level then 1 else 0)
  {
    var n := |jobs| - 1;
    if j == n {
      assert jobs[j := job][..n] == jobs[..n];
    } else {
      QueuedUpdate(jobs[..n], j, job, level);
      assert jobs[j := job][..n] == jobs[..n][j := job];
    }
  }

  lemma {:induction false} OwedUpdate(jobs: seq<Job>, pollers: seq<Poller>, p: nat, poller: Poller, level: nat)
    requires p < |pollers|
    ensures OwedAt(jobs, pollers[p := poller], level) + Weight(jobs, pollers[p], level)
         == OwedAt(jobs, pollers, level) + Weight(jobs, poller, level)
  {
    var n := |pollers| - 1;
    if p == n {
      assert pollers[p := poller][..n] == pollers[..n];
    } else {
      OwedUpdate(jobs, pollers[..n], p, poller, level);
      assert pollers[p := poller][..n] == pollers[..n][p := poller];
    }
  }

  lemma {:induction false} IdleUpdate(pollers: seq<Poller>, p: nat, poller: Poller)
    requires p < |pollers|
    ensures IdleCount(pollers[p := poller]) + (if pollers[p].Idle? then 1 else 0)
         == IdleCount(pollers) + (if poller.Idle? then 1 else 0)
  {
    var n := |pollers| - 1;
    if p == n {
      assert pollers[p := poller][..n] == pollers[..n];
    } else {
      IdleUpdate(pollers[..n], p, poller);
      assert pollers[p := poller][..n] == pollers[..n][p := poller];
    }
  }

  /** The weights read the kinds of the jobs alone, and those never change. */
  lemma {:induction false} OwedKinds(jobs: seq<Job>, jobs': seq<Job>, pollers: seq<Poller>, level: nat)
    requires |jobs| <= |jobs'| && (forall j: nat | j < |jobs| :: jobs'[j].kind == jobs[j].kind)
    requires forall p | 0 <= p < |pollers| && pollers[p].Working? :: pollers[p].job < |jobs|
    ensures OwedAt(jobs', pollers, level) == OwedAt(jobs, pollers, level)
  {
    if pollers != [] {
      OwedKinds(jobs, jobs', pollers[..|pollers| - 1], level);
    }
  }

  // ----- every step of the pool goes down ------------------------------------------------

  function Queued(m: Pool, level: nat): nat {
    QueuedAt(m.jobs, level)
  }

  function Owed(m: Pool, level: nat): nat {
    OwedAt(m.jobs, m.pollers, level)
  }

  predicate Lex(now: nat, was: nat, rest: bool) {
    now < was || (now == was && rest)
  }

  /** Level by level from the top, the queued jobs and then the work owed; idle pollers last. */
  predicate Below(m': Pool, m: Pool) {
    Lex(Queued(m', 3), Queued(m, 3), Lex(Owed(m', 3), Owed(m, 3),
    Lex(Queued(m', 2), Queued(m, 2), Lex(Owed(m', 2), Owed(m, 2),
    Lex(Queued(m', 1), Queued(m, 1), Lex(Owed(m', 1), Owed(m, 1),
    IdleCount(m'.pollers) < IdleCount(m.pollers)))))))
  }

  lemma LockGoesDown(m: Pool, e: Event)
    requires Safe(m) && e.Lock? && Enabled(m, e)
    ensures Below(Apply(m, e), m)
  {
    IdleUpdate(m.pollers, e.p, Locked(e.job));
    forall level: nat ensures Owed(Apply(m, e), level) == Owed(m, level) {
      OwedUpdate(m.jobs, m.pollers, e.p, Locked(e.job), level);
    }
  }

  lemma CommitAt(m: Pool, e: Event, level: nat)
    requires Safe(m) && e.Commit? && Enabled(m, e)
    ensures var own := Level(m.jobs[m.pollers[e.p].job].kind);
            && Queued(Apply(m, e), level) == Queued(m, level) - (if level == own then 1 else 0)
            && (level != own ==> Owed(Apply(m, e), level) == Owed(m, level))
  {
    var m', j := Apply(m, e), m.pollers[e.p].job;
    assert PollerOk(m, m.pollers[e.p]);
    assert forall p | 0 <= p < |m.pollers| :: PollerOk(m, m.pollers[p]);
    QueuedUpdate(m.jobs, j, m.jobs[j].(status := Running), level);
    OwedUpdate(m.jobs, m.pollers, e.p, Working(j, e.budget), level);
    assert forall p | 0 <= p < |m'.pollers| && m'.pollers[p].Working? :: m'.pollers[p].job < |m.jobs|;
    OwedKinds(m.jobs, m'.jobs, m'.pollers, level);
  }

  lemma SpawnQueues(m: Pool, e: Event, level: nat)
    requires Safe(m) && e.Spawn? && Enabled(m, e)
    ensures level >= Level(m.jobs[m.pollers[e.p].job].kind) ==> Queued(Apply(m, e), level) == Queued(m, level)
  {
    var m' := Apply(m, e);
    assert m'.jobs[..|m'.jobs| - 1] == m.jobs;
  }

  lemma SpawnAt(m: Pool, e: Event, level: nat)
    requires Safe(m) && e.Spawn? && Enabled(m, e)
    ensures var own := Level(m.jobs[m.pollers[e.p].job].kind);
            && (level >= own ==> Queued(Apply(m, e), level) == Queued(m, level))
            && Owed(Apply(m, e), level) == Owed(m, level) - (if level == own then 1 else 0)
  {
    var m', j, budget := Apply(m, e), m.pollers[e.p].job, m.pollers[e.p].budget;
    SpawnQueues(m, e, level);
    assert forall p | 0 <= p < |m.pollers| :: PollerOk(m, m.pollers[p]);
    OwedUpdate(m.jobs, m.pollers, e.p, Working(j, budget - 1), level);
    OwedKinds(m.jobs, m'.jobs, m'.pollers, level);
  }

  lemma EndAt(m: Pool, e: Event, level: nat)
    requires Safe(m) && (e.Finish? || e.Lose?) && Enabled(m, e)
    ensures var own := Level(m.jobs[m.pollers[e.p].job].kind);
            && Queued(Apply(m, e), level) == Queued(m, level)
            && (level == own ==> Owed(Apply(m, e), level) < Owed(m, level))
            && (level != own ==> Owed(Apply(m, e), level) == Owed(m, level))
  {
    var m', j := Apply(m, e), m.pollers[e.p].job;
    assert PollerOk(m, m.pollers[e.p]);
    assert forall p | 0 <= p < |m.pollers| :: PollerOk(m, m.pollers[p]);
    if e.Finish? {
      QueuedUpdate(m.jobs, j, m'.jobs[j], level);
    }
    OwedUpdate(m.jobs, m.pollers, e.p, Idle, level);
    OwedKinds(m.jobs, m'.jobs, m'.pollers, level);
  }

  lemma StepGoesDown(m: Pool, e: Event)
    requires Safe(m) && Enabled(m, e) && IsPoolStep(e)
    ensures Below(Apply(m, e), m)
  {
    match e
    case Lock(_, _) => LockGoesDown(m, e);
    case Commit(_, _) => CommitAt(m, e, 1); CommitAt(m, e, 2); CommitAt(m, e, 3);
    case Spawn(_, _, _) => SpawnAt(m, e, 1); SpawnAt(m, e, 2); SpawnAt(m, e, 3);
    case Finish(_, _) => EndAt(m, e, 1); EndAt(m, e, 2); EndAt(m, e, 3);
    case Lose(_) => EndAt(m, e, 1); EndAt(m, e, 2); EndAt(m, e, 3);
    case _ =>
  }

  // ----- termination and what is left ----------------------------------------------------

  ghost predicate PoolStep(m: Pool, m': Pool) {
    exists e :: IsPoolStep(e) && Enabled(m, e) && m' == Apply(m, e)
  }

  /** No pool runs forever on its own: along any sequence of states from a safe one there
      is a point the pool does not get past by a step. */
  lemma {:induction false} EveryRunEnds(states: nat -> Pool, i: nat)
    requires Safe(states(i))
    ensures exists k: nat :: k >= i && !PoolStep(states(k), states(k + 1))
    decreases Queued(states(i), 3), Owed(states(i), 3), Queued(states(i), 2), Owed(states(i), 2),
              Queued(states(i), 1), Owed(states(i), 1), IdleCount(states(i).pollers)
  {
    if PoolStep(states(i), states(i + 1)) {
      var e :| IsPoolStep(e) && Enabled(states(i), e) && states(i + 1) == Apply(states(i), e);
      StepGoesDown(states(i), e);
      StepKeepsSafe(states(i), e);
      EveryRunEnds(states, i + 1);
    }
  }

  /** Nothing is queued, nobody is busy. */
  predicate Drained(m: Pool) {
    && (forall p | 0 <= p < |m.pollers| :: m.pollers[p].Idle?)
    && (forall j: nat | j < |m.jobs| :: m.jobs[j].status.Completed? || m.jobs[j].status.Failed? || j in m.orphans)
  }

  lemma HasOldest(jobs: seq<Job>, kind: JobKind, some: nat) returns (oldest: nat)
    requires Waiting(jobs, kind, some)
    ensures IsOldest(jobs, kind, oldest)
  {
    var ids := set j: nat | j < |jobs| && Waiting(jobs, kind, j);
    var created: map<nat, int> := map j | j in ids :: jobs[j].created;
    assert some in ids;
    oldest := Least(ids, created);
    forall i: nat | i < |jobs| && Waiting(jobs, kind, i)
      ensures jobs[oldest].created <= jobs[i].created
    {
      assert i in ids && Before(created, oldest, i);
    }
  }

  lemma IdleNobodyRuns(m: Pool)
    requires Safe(m) && forall p | 0 <= p < |m.pollers| :: m.pollers[p].Idle?
    ensures forall j: nat | j < |m.jobs| && m.jobs[j].status.Running? :: j in m.orphans
  {
    assert forall j: nat :: !IsWorkedOn(m, j);
  }

  /** While a job is left, some poller can move: with at least one poller, a pool that is
      stuck is drained. */
  lemma StuckMeansDrained(m: Pool)
    requires Safe(m) && |m.pollers| > 0
    ensures Drained(m) <==> forall e | IsPoolStep(e) :: !Enabled(m, e)
  {
    if Drained(m) {
      forall e | IsPoolStep(e)
        ensures !Enabled(m, e)
      {
      }
    } else if p :| 0 <= p < |m.pollers| && !m.pollers[p].Idle? {
      assert PollerOk(m, m.pollers[p]);
      if m.pollers[p].Locked? {
        assert Enabled(m, Commit(p, 0));
      } else {
        assert Enabled(m, Finish(p, true));
      }
    } else {
      var j: nat :| j < |m.jobs| && !m.jobs[j].status.Completed? && !m.jobs[j].status.Failed? && j !in m.orphans;
      IdleNobodyRuns(m);
      var o := HasOldest(m.jobs, m.jobs[j].kind, j);
      forall i: nat | i < |m.jobs| && Claimable(m, i) && m.jobs[i].kind == m.jobs[o].kind
        ensures m.jobs[o].created <= m.jobs[i].created
      {
        assert Waiting(m.jobs, m.jobs[j].kind, i);
      }
      assert Enabled(m, Lock(0, o));
    }
  }
}

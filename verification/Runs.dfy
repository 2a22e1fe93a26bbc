/** One poller's whole job as events of the queue machine: claim, any number of insertions,
    final status, while the other pollers are wherever they are. */
module Runs {
  import opened Tables
  import opened Queue

  /** `n` jobs alike. */
  function Copies(n: nat, job: Job): seq<Job> {
    if n == 0 then [] else Copies(n - 1, job) + [job]
  }

  function Spawns(p: nat, n: nat, doc: Option<Id>, now: int): seq<Event> {
    if n == 0 then [] else Spawns(p, n - 1, doc, now) + [Spawn(p, doc, now)]
  }

  function WholeJob(p: nat, j: nat, n: nat, doc: Option<Id>, now: int, ok: bool): seq<Event> {
    [Lock(p, j), Commit(p, n)] + Spawns(p, n, doc, now) + [Finish(p, ok)]
  }

  lemma {:induction false} Continued(m: Pool, run: seq<Event>, e: Event)
    requires Legal(m, run) && Enabled(Exec(m, run), e)
    ensures Legal(m, run + [e]) && Exec(m, run + [e]) == Apply(Exec(m, run), e)
    decreases |run|
  {
    if run == [] {
      assert run + [e] == [e] && [e][1..] == [];
      assert Legal(Apply(m, e), []);
    } else {
      Continued(Apply(m, run[0]), run[1..], e);
      assert (run + [e])[1..] == run[1..] + [e];
    }
  }

  /** The job that is the oldest of its kind can be claimed unless somebody is inside a claim
      of that very job. */
  lemma OldestCanBeClaimed(m: Pool, p: nat, j: nat)
    requires j < |m.jobs| && IsOldest(m.jobs, m.jobs[j].kind, j) && p < |m.pollers| && m.pollers[p].Idle? && !IsLocked(m, j)
    ensures Enabled(m, Lock(p, j))
  {
    forall i: nat | i < |m.jobs| && Claimable(m, i) && m.jobs[i].kind == m.jobs[j].kind
      ensures m.jobs[j].created <= m.jobs[i].created
    {
      assert Waiting(m.jobs, m.jobs[j].kind, i);
    }
  }

  lemma ClaimRun(m: Pool, p: nat, j: nat, n: nat)
    requires Enabled(m, Lock(p, j)) && WithinBudget(m.jobs[j].kind, n)
    ensures var run := [Lock(p, j), Commit(p, n)];
            Legal(m, run) &&
            Exec(m, run) == m.(jobs := SetStatus(m.jobs, j, Running), handed := m.handed + [j], pollers := m.pollers[p := Working(j, n)])
  {
    var run := [Lock(p, j), Commit(p, n)];
    var locked := Apply(m, Lock(p, j));
    var claimed := Apply(locked, Commit(p, n));
    assert run[1..] == [Commit(p, n)] && run[1..][1..] == [];
    assert Legal(claimed, []) && Legal(locked, run[1..]);
    assert Exec(locked, run[1..]) == Exec(claimed, []) == claimed;
    assert Exec(m, run) == claimed;
    assert claimed.pollers == m.pollers[p := Working(j, n)];
  }

  /** After `n` of its insertions a worker with a budget of `budget` has `budget - n` left. */
  lemma {:induction false} SpawnsRun(m: Pool, before: seq<Event>, p: nat, j: nat, budget: nat, n: nat, doc: Option<Id>, now: int)
    requires Legal(m, before) && n <= budget
    requires p < |Exec(m, before).pollers| && Exec(m, before).pollers[p] == Working(j, budget)
    requires j < |Exec(m, before).jobs| && (n > 0 ==> Next(Exec(m, before).jobs[j].kind).Some?)
    ensures Legal(m, before + Spawns(p, n, doc, now))
    ensures var w := Exec(m, before);
            Exec(m, before + Spawns(p, n, doc, now)) ==
            w.(jobs := w.jobs + (if n == 0 then [] else Copies(n, Job(doc, Next(w.jobs[j].kind).value, Queued, now))),
               pollers := w.pollers[p := Working(j, budget - n)])
  {
    var w := Exec(m, before);
    if n == 0 {
      assert before + Spawns(p, 0, doc, now) == before && w.jobs + [] == w.jobs;
      assert w.pollers[p := Working(j, budget)] == w.pollers;
    } else {
      var job := Job(doc, Next(w.jobs[j].kind).value, Queued, now);
      SpawnsRun(m, before, p, j, budget, n - 1, doc, now);
      var run := before + Spawns(p, n - 1, doc, now);
      Continued(m, run, Spawn(p, doc, now));
      assert run + [Spawn(p, doc, now)] == before + Spawns(p, n, doc, now);
      assert w.jobs + Copies(n, job) == w.jobs + Copies(n - 1, job) + [job];
    }
  }

  lemma FinishRun(m: Pool, before: seq<Event>, p: nat, j: nat, jobs: seq<Job>, more: seq<Job>, ok: bool)
    requires Legal(m, before) && j < |jobs| && p < |m.pollers| && m.pollers[p].Idle?
    requires Exec(m, before).pollers == m.pollers[p := Working(j, 0)]
    requires Exec(m, before).jobs == SetStatus(jobs, j, Running) + more
    ensures var run, w := before + [Finish(p, ok)], Exec(m, before);
            Legal(m, run) &&
            Exec(m, run) == w.(pollers := m.pollers, jobs := SetStatus(jobs, j, if ok then Completed else Failed) + more)
  {
    Continued(m, before, Finish(p, ok));
    var w, status := Exec(m, before), if ok then Completed else Failed;
    assert SetStatus(w.jobs, j, status) == SetStatus(jobs, j, status) + more;
    assert w.pollers[p := Idle] == m.pollers;
  }

  /** A whole job from any pool in which the poller may claim it. */
  lemma WholeJobRuns(m: Pool, p: nat, j: nat, n: nat, doc: Option<Id>, now: int, ok: bool)
    requires Enabled(m, Lock(p, j)) && WithinBudget(m.jobs[j].kind, n)
    ensures Legal(m, WholeJob(p, j, n, doc, now, ok))
    ensures Exec(m, WholeJob(p, j, n, doc, now, ok)) ==
            m.(handed := m.handed + [j],
               jobs := SetStatus(m.jobs, j, if ok then Completed else Failed)
                       + if n == 0 then [] else Copies(n, Job(doc, Next(m.jobs[j].kind).value, Queued, now)))
  {
    var claim := [Lock(p, j), Commit(p, n)];
    ClaimRun(m, p, j, n);
    SpawnsRun(m, claim, p, j, n, n, doc, now);
    FinishRun(m, claim + Spawns(p, n, doc, now), p, j, m.jobs,
              if n == 0 then [] else Copies(n, Job(doc, Next(m.jobs[j].kind).value, Queued, now)), ok);
  }
}

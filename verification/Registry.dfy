/** The backend registry: a cache filled by double-checked locking, under any number of
    threads. Reads and writes of the cache happen under the lock, a step at a time; a
    factory runs while its caller holds the lock. */
module Registry {
  import opened Tables

  type Config = string
  type Backend = nat

  /** Where a caller of GetOrCreate is: before the first look, waiting for the write lock,
      holding it before the second look, holding it without a hit, and with a new backend. */
  datatype Caller = Outside | Looking(id: Config) | Waiting(id: Config) | Holding(id: Config) | Missing(id: Config) | Made(id: Config, backend: Backend)

  /** A backend handed to a caller, and how many Puts and Removes of the id came before. */
  datatype Handout = Handout(id: Config, epoch: nat, backend: Backend)

  /** `created`, `removed` and `epochs` count, per id, successful factory calls, Removes,
      and Puts and Removes together; `handouts` is what GetOrCreate returned so far. */
  datatype Cache = Cache(backends: map<Config, Backend>, callers: seq<Caller>,
                         created: Config -> nat, removed: Config -> nat, epochs: Config -> nat, handouts: set<Handout>)

  datatype Event =
    | Enter(t: nat, id: Config)
    | Look(t: nat)
    | Acquire(t: nat)
    | LookAgain(t: nat)
    | Build(t: nat, result: Option<Backend>)
    | Keep(t: nat)
    | Put(id: Config, backend: Backend)
    | Remove(id: Config)

  predicate HoldsLock(c: Caller) {
    c.Holding? || c.Missing? || c.Made?
  }

  predicate Locked(m: Cache) {
    exists t :: 0 <= t < |m.callers| && HoldsLock(m.callers[t])
  }

  predicate Enabled(m: Cache, e: Event) {
    match e
    case Enter(t, id) => t < |m.callers| && m.callers[t].Outside? && id != ""
    case Look(t) => t < |m.callers| && m.callers[t].Looking? && !Locked(m)
    case Acquire(t) => t < |m.callers| && m.callers[t].Waiting? && !Locked(m)
    case LookAgain(t) => t < |m.callers| && m.callers[t].Holding?
    case Build(t, _) => t < |m.callers| && m.callers[t].Missing?
    case Keep(t) => t < |m.callers| && m.callers[t].Made?
    case Put(_, _) => !Locked(m)
    case Remove(_) => !Locked(m)
  }

  function Bump(count: Config -> nat, id: Config): Config -> nat {
    x => if x == id then count(x) + 1 else count(x)
  }

  function Return(m: Cache, t: nat, id: Config, backend: Backend): Cache
    requires t < |m.callers|
  {
    m.(callers := m.callers[t := Outside], handouts := m.handouts + {Handout(id, m.epochs(id), backend)})
  }

  function Apply(m: Cache, e: Event): Cache
    requires Enabled(m, e)
  {
    match e
    case Enter(t, id) => m.(callers := m.callers[t := Looking(id)])
    case Look(t) =>
      var id := m.callers[t].id;
      if id in m.backends then Return(m, t, id, m.backends[id]) else m.(callers := m.callers[t := Waiting(id)])
    case Acquire(t) => m.(callers := m.callers[t := Holding(m.callers[t].id)])
    case LookAgain(t) =>
      var id := m.callers[t].id;
      if id in m.backends then Return(m, t, id, m.backends[id]) else m.(callers := m.callers[t := Missing(id)])
    case Build(t, result) =>
      var id := m.callers[t].id;
      if result.Some? then m.(callers := m.callers[t := Made(id, result.value)], created := Bump(m.created, id))
      else m.(callers := m.callers[t := Outside])
    case Keep(t) =>
      var Made(id, b) := m.callers[t];
      Return(m.(backends := m.backends[id := b]), t, id, b)
    case Put(id, b) => m.(backends := m.backends[id := b], epochs := Bump(m.epochs, id))
    case Remove(id) => m.(backends := m.backends - {id}, removed := Bump(m.removed, id), epochs := Bump(m.epochs, id))
  }

  predicate Legal(m: Cache, run: seq<Event>)
    decreases |run|
  {
    run == [] || (Enabled(m, run[0]) && Legal(Apply(m, run[0]), run[1..]))
  }

  function Exec(m: Cache, run: seq<Event>): Cache
    requires Legal(m, run)
    decreases |run|
  {
    if run == [] then m else Exec(Apply(m, run[0]), run[1..])
  }

  // ----- what every step keeps -----------------------------------------------------------------

  /** The lock has one holder at most, and a holder past the second look knows its id is absent. */
  predicate LockOk(m: Cache) {
    && (forall s, t | 0 <= s < t < |m.callers| :: !(HoldsLock(m.callers[s]) && HoldsLock(m.callers[t])))
    && (forall t | 0 <= t < |m.callers| && (m.callers[t].Missing? || m.callers[t].Made?) :: m.callers[t].id !in m.backends)
  }

  predicate BeingMade(m: Cache, id: Config) {
    exists t :: 0 <= t < |m.callers| && m.callers[t].Made? && m.callers[t].id == id
  }

  /** Beyond its Removes an id was created at most once, and then it is there. */
  ghost predicate CreatedOk(m: Cache) {
    forall id :: m.created(id) <= m.removed(id) + if id in m.backends || BeingMade(m, id) then 1 else 0
  }

  /** What was handed out since the last Put or Remove of an id is what the cache holds. */
  predicate HandoutsOk(m: Cache) {
    && (forall h | h in m.handouts :: h.epoch <= m.epochs(h.id))
    && (forall h | h in m.handouts && h.epoch == m.epochs(h.id) :: h.id in m.backends && m.backends[h.id] == h.backend)
    && (forall g, h | g in m.handouts && h in m.handouts && g.id == h.id && g.epoch == h.epoch :: g.backend == h.backend)
  }

  lemma EmptyCacheIsSafe(m: Cache)
    requires m.backends == map[] && m.handouts == {} && (forall id :: m.created(id) == 0) && forall t | 0 <= t < |m.callers| :: m.callers[t].Outside?
    ensures LockOk(m) && CreatedOk(m) && HandoutsOk(m)
  {
  }

  lemma StepKeepsLock(m: Cache, e: Event)
    requires LockOk(m) && Enabled(m, e)
    ensures LockOk(Apply(m, e))
  {
  }

  lemma StepKeepsHandouts(m: Cache, e: Event)
    requires LockOk(m) && HandoutsOk(m) && Enabled(m, e)
    ensures HandoutsOk(Apply(m, e))
  {
  }

  lemma MadeStays(m: Cache, e: Event, id: Config)
    requires LockOk(m) && Enabled(m, e) && BeingMade(m, id)
    ensures var m' := Apply(m, e); BeingMade(m', id) || id in m'.backends
    ensures !e.Build? && !e.Put? && !e.Remove?
  {
    var t :| 0 <= t < |m.callers| && m.callers[t].Made? && m.callers[t].id == id;
    assert HoldsLock(m.callers[t]);
    var m' := Apply(m, e);
    if !(e.Keep? && e.t == t) {
      assert m'.callers[t] == m.callers[t];
    }
  }

  lemma StepKeepsCreated(m: Cache, e: Event)
    requires LockOk(m) && CreatedOk(m) && Enabled(m, e)
    ensures CreatedOk(Apply(m, e))
  {
    var m' := Apply(m, e);
    forall id
      ensures m'.created(id) <= m'.removed(id) + if id in m'.backends || BeingMade(m', id) then 1 else 0
    {
      if BeingMade(m, id) {
        MadeStays(m, e, id);
      }
      if e.Build? && e.result.Some? && id == m.callers[e.t].id {
        assert m'.callers[e.t].Made?;
      }
    }
  }

  lemma {:induction false} RunKeepsAll(m: Cache, run: seq<Event>)
    requires LockOk(m) && CreatedOk(m) && HandoutsOk(m) && Legal(m, run)
    ensures LockOk(Exec(m, run)) && CreatedOk(Exec(m, run)) && HandoutsOk(Exec(m, run))
    decreases |run|
  {
    if run != [] {
      StepKeepsLock(m, run[0]);
      StepKeepsCreated(m, run[0]);
      StepKeepsHandouts(m, run[0]);
      RunKeepsAll(Apply(m, run[0]), run[1..]);
    }
  }

  /** Over every interleaving: an id is created at most once more than it was removed, and
      all callers between two Puts or Removes of it get the same backend. */
  lemma RegistryIsSafe(m: Cache, run: seq<Event>, id: Config, g: Handout, h: Handout)
    requires LockOk(m) && CreatedOk(m) && HandoutsOk(m) && Legal(m, run)
    ensures Exec(m, run).created(id) <= Exec(m, run).removed(id) + 1
    ensures g in Exec(m, run).handouts && h in Exec(m, run).handouts && g.id == h.id && g.epoch == h.epoch ==> g.backend == h.backend
  {
    RunKeepsAll(m, run);
  }

  // ----- the registry ----------------------------------------------------------------------------

  type Factory = string -> Result<Backend>

  /** GetOrCreate with nobody in between: the cache afterwards, and the answer. */
  function Got(backends: map<Config, Backend>, factories: map<string, Factory>, fallback: Backend, id: Config, kind: string, config: string)
    : (map<Config, Backend>, Result<Backend>)
  {
    if id == "" then (backends, Ok(fallback))
    else if id in backends then (backends, Ok(backends[id]))
    else if kind !in factories then (backends, Err(NotFound))
    else
      var made := factories[kind](config);
      if made.Err? then (backends, made) else (backends[id := made.value], made)
  }

  function Answer(factories: map<string, Factory>, kind: string, config: string): Option<Backend> {
    if kind in factories && factories[kind](config).Ok? then Some(factories[kind](config).value) else None
  }

  lemma MissGoesToTheFactory(m: Cache, t: nat, id: Config)
    requires t < |m.callers| && m.callers[t].Outside? && id != "" && !Locked(m) && id !in m.backends
    ensures Legal(m, [Enter(t, id), Look(t), Acquire(t), LookAgain(t)])
    ensures Exec(m, [Enter(t, id), Look(t), Acquire(t), LookAgain(t)]) == m.(callers := m.callers[t := Missing(id)])
  {
    var m1 := Apply(m, Enter(t, id));
    assert forall s | 0 <= s < |m.callers| :: !HoldsLock(m1.callers[s]);
    var m2 := Apply(m1, Look(t));
    assert forall s | 0 <= s < |m.callers| :: !HoldsLock(m2.callers[s]);
    var m3 := Apply(m2, Acquire(t));
    var m4 := Apply(m3, LookAgain(t));
    assert m4.callers == m.callers[t := Missing(id)];
    var run := [Enter(t, id), Look(t), Acquire(t), LookAgain(t)];
    assert run[1..] == [Look(t), Acquire(t), LookAgain(t)] && run[1..][1..] == [Acquire(t), LookAgain(t)];
    assert run[1..][1..][1..] == [LookAgain(t)] && run[1..][1..][1..][1..] == [];
    assert Legal(m4, []) && Legal(m3, [LookAgain(t)]) && Legal(m2, [Acquire(t), LookAgain(t)]);
    assert Exec(m3, [LookAgain(t)]) == m4 && Exec(m2, [Acquire(t), LookAgain(t)]) == m4;
  }

  /** A call with nobody in between is GetOrCreate: the interleaved form refines it. */
  lemma UndisturbedIsGetOrCreate(m: Cache, t: nat, id: Config, factories: map<string, Factory>, fallback: Backend, kind: string, config: string)
    requires t < |m.callers| && m.callers[t] == Missing(id) && id != "" && id !in m.backends
    ensures var result, got := Answer(factories, kind, config), Got(m.backends, factories, fallback, id, kind, config);
            var built := Apply(m, Build(t, result));
            if result.Some? then
              var kept := Apply(built, Keep(t));
              kept.backends == got.0 && got.1.Ok? && kept.handouts == m.handouts + {Handout(id, m.epochs(id), got.1.value)}
            else built.backends == got.0 && got.1.Err? && built.handouts == m.handouts
  {
  }

  /** A call that finds its id: the cached backend, and nothing else changes; no id at all is
      the fallback. */
  lemma HitIsGetOrCreate(m: Cache, t: nat, id: Config, factories: map<string, Factory>, fallback: Backend, kind: string, config: string)
    requires t < |m.callers| && m.callers[t].Outside? && id != "" && !Locked(m) && id in m.backends
    ensures Legal(m, [Enter(t, id), Look(t)])
    ensures Exec(m, [Enter(t, id), Look(t)]) == m.(handouts := m.handouts + {Handout(id, m.epochs(id), m.backends[id])})
    ensures Got(m.backends, factories, fallback, id, kind, config) == (m.backends, Ok(m.backends[id]))
    ensures Got(m.backends, factories, fallback, "", kind, config) == (m.backends, Ok(fallback))
  {
    var run := [Enter(t, id), Look(t)];
    var m1 := Apply(m, Enter(t, id));
    assert forall s | 0 <= s < |m.callers| :: !HoldsLock(m1.callers[s]);
    var m2 := Apply(m1, Look(t));
    assert m2.callers == m.callers;
    assert run[1..] == [Look(t)] && run[1..][1..] == [];
    assert Legal(m2, []) && Legal(m1, [Look(t)]) && Exec(m1, [Look(t)]) == m2;
  }

  /** After a Put an undisturbed call gets what was put, and after a Remove it goes to the
      factory. */
  lemma PutAndRemoveAreSeen(m: Cache, t: nat, id: Config, backend: Backend)
    requires t < |m.callers| && m.callers[t].Outside? && id != "" && !Locked(m)
    ensures var put := Apply(m, Put(id, backend));
            && Legal(put, [Enter(t, id), Look(t)])
            && Exec(put, [Enter(t, id), Look(t)]).handouts == m.handouts + {Handout(id, m.epochs(id) + 1, backend)}
    ensures var removed := Apply(m, Remove(id));
            && Legal(removed, [Enter(t, id), Look(t), Acquire(t), LookAgain(t)])
            && Exec(removed, [Enter(t, id), Look(t), Acquire(t), LookAgain(t)]).callers == m.callers[t := Missing(id)]
  {
    var put, removed := Apply(m, Put(id, backend)), Apply(m, Remove(id));
    assert !Locked(put) && !Locked(removed);
    HitIsGetOrCreate(put, t, id, map[], backend, "", "");
    MissGoesToTheFactory(removed, t, id);
  }

  /** A call that misses: an unknown kind and a factory that fails are errors that leave no
      entry; what the factory makes is kept under the id and returned. */
  lemma MissIsBuilt(backends: map<Config, Backend>, factories: map<string, Factory>, fallback: Backend,
                    id: Config, kind: string, config: string)
    requires id != "" && id !in backends
    ensures var (after, r) := Got(backends, factories, fallback, id, kind, config);
            if kind !in factories then r == Err(NotFound) && after == backends
            else r == factories[kind](config) && after == if r.Ok? then backends[id := r.value] else backends
  {
  }

  class Registry {
    var backends: map<Config, Backend>
    var factories: map<string, Factory>
    const fallback: Backend

    constructor (fallback: Backend)
      ensures backends == map[] && factories == map[] && this.fallback == fallback
    {
      backends, factories := map[], map[];
      this.fallback := fallback;
    }

    method RegisterFactory(kind: string, factory: Factory)
      modifies this`factories
      ensures factories == old(factories)[kind := factory]
    {
      factories := factories[kind := factory];
    }

    method Get(id: Option<Config>) returns (r: Result<Backend>)
      ensures r == if id.None? || id.value == "" then Ok(fallback)
                   else if id.value in backends then Ok(backends[id.value]) else Err(NotFound)
    {
      if id.None? || id.value == "" {
        return Ok(fallback);
      }
      r := if id.value in backends then Ok(backends[id.value]) else Err(NotFound);
    }

    method PutBackend(id: Config, backend: Backend)
      modifies this`backends
      ensures backends == old(backends)[id := backend]
    {
      backends := backends[id := backend];
    }

    /** Whatever fails leaves no entry; what succeeds stays for the next caller. */
    method GetOrCreate(id: Config, kind: string, config: string) returns (r: Result<Backend>)
      modifies this`backends
      ensures (backends, r) == Got(old(backends), factories, fallback, id, kind, config)
      ensures r.Err? ==> backends == old(backends)
      ensures r.Ok? && id != "" ==> id in backends && backends[id] == r.value
    {
      if id == "" {
        return Ok(fallback);
      }
      if id in backends {
        return Ok(backends[id]);
      }
      if kind !in factories {
        return Err(NotFound);
      }
      var made := factories[kind](config);
      if made.Err? {
        return made;
      }
      backends := backends[id := made.value];
      r := made;
    }

    method RemoveBackend(id: Config)
      modifies this`backends
      ensures backends == old(backends) - {id}
    {
      backends := backends - {id};
    }
  }
}

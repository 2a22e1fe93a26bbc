/** UpdateTopic statement by statement: it reads the topic, compares two embedding
    configurations, and writes, with no transaction around them. Any number of updates in
    flight interleave with each other and with the other requests. */
module TopicRaces {
  import opened Tables
  import opened TopicBindings

  /** An update past its permission check: what it asks for, and what it has read. */
  datatype Call =
    | Fetching(id: Id, name: string, b: Bindings)
    | FetchingOld(id: Id, name: string, b: Bindings, seen: Topic, current: string, wanted: string)
    | FetchingNew(id: Id, name: string, b: Bindings, seen: Topic, current: string, wanted: string)
    | Writing(id: Id, name: string, b: Bindings, seen: Topic)
    | Done(outcome: Result<()>)

  /** The checks on the topic as it was read. */
  function Checked(checks: bool, id: Id, name: string, b: Bindings, t: Topic): Call {
    if IsSet(Coalesce(b.prompt, t.prompt)) && !IsSet(Coalesce(b.llm, t.llm)) then Done(Err(Invalid))
    else if Rebinds(t, b) && checks then FetchingOld(id, name, b, t, t.embedding.value, b.embedding.value)
    else Writing(id, name, b, t)
  }

  /** The next statement. The two configurations are compared once both are read; their
      provider and model cannot have changed in between, so the first is looked up again. */
  function Advance(c: Configs, checks: bool, call: Call): (Configs, Call) {
    match call
    case Fetching(id, name, b) => (c, if id in c.topics then Checked(checks, id, name, b, c.topics[id]) else Done(Err(NotFound)))
    case FetchingOld(id, name, b, t, x, y) => (c, if x in c.embeddings then FetchingNew(id, name, b, t, x, y) else Done(Err(NotFound)))
    case FetchingNew(id, name, b, t, x, y) =>
      (c, if x !in c.embeddings || y !in c.embeddings then Done(Err(NotFound))
          else if SameKind(c, x, y) then Writing(id, name, b, t) else Done(Err(Invalid)))
    case Writing(id, name, b, _) =>
      var written := UpdateRow(c, id, name, b);
      if written.Ok? then (written.value, Done(Ok(()))) else (c, Done(Err(written.error)))
    case Done(_) => (c, call)
  }

  function Rank(call: Call): nat {
    match call
    case Fetching(_, _, _) => 4
    case FetchingOld(_, _, _, _, _, _) => 3
    case FetchingNew(_, _, _, _, _, _) => 2
    case Writing(_, _, _, _) => 1
    case Done(_) => 0
  }

  /** The call run to its end with nobody in between. */
  function Finish(c: Configs, checks: bool, call: Call): (Configs, Result<()>)
    decreases Rank(call)
  {
    if call.Done? then (c, call.outcome)
    else var (c', call') := Advance(c, checks, call); Finish(c', checks, call')
  }

  lemma WriteEnds(c: Configs, checks: bool, call: Call)
    requires call.Writing?
    ensures var written := UpdateRow(c, call.id, call.name, call.b);
            Finish(c, checks, call) == if written.Ok? then (written.value, Ok(())) else (c, Err(written.error))
  {
  }

  lemma ComparisonEnds(c: Configs, checks: bool, call: Call)
    requires call.FetchingOld?
    ensures Finish(c, checks, call) ==
            if call.current !in c.embeddings || call.wanted !in c.embeddings then (c, Err(NotFound))
            else if SameKind(c, call.current, call.wanted) then Finish(c, checks, Writing(call.id, call.name, call.b, call.seen))
            else (c, Err(Invalid))
  {
    if call.current in c.embeddings {
      var next := FetchingNew(call.id, call.name, call.b, call.seen, call.current, call.wanted);
      assert Finish(c, checks, call) == Finish(c, checks, next);
      assert Finish(c, checks, next) == Finish(c, checks, Advance(c, checks, next).1);
    }
  }

  /** Undisturbed, the statements are the update as one step. */
  lemma UndisturbedIsUpdate(c: Configs, checks: bool, id: Id, name: string, b: Bindings)
    ensures var whole := UpdateTopic(c, checks, true, id, name, b);
            Finish(c, checks, Fetching(id, name, b)) == if whole.Ok? then (whole.value, Ok(())) else (c, Err(whole.error))
  {
    if id in c.topics {
      var t := c.topics[id];
      var call := Checked(checks, id, name, b, t);
      assert Finish(c, checks, Fetching(id, name, b)) == Finish(c, checks, call);
      if call.FetchingOld? {
        ComparisonEnds(c, checks, call);
      }
      WriteEnds(c, checks, Writing(id, name, b, t));
    }
  }

  // ----- interleavings ---------------------------------------------------------------------

  datatype World = World(configs: Configs, calls: map<nat, Call>)

  /** `Other` is any other request; each of those is one statement. */
  datatype Event = Begin(k: nat, id: Id, name: string, b: Bindings) | Run(k: nat) | Stop(k: nat) | Other(op: Op)

  predicate Enabled(w: World, e: Event) {
    match e
    case Begin(k, _, _, _) => k !in w.calls
    case Run(k) => k in w.calls && !w.calls[k].Done?
    case Stop(k) => k in w.calls
    case Other(op) => !op.UpdatesTopic?
  }

  function Apply(w: World, checks: bool, e: Event): World
    requires Enabled(w, e)
  {
    match e
    case Begin(k, id, name, b) => w.(calls := w.calls[k := Fetching(id, name, b)])
    case Run(k) => var (c, call) := Advance(w.configs, checks, w.calls[k]); World(c, w.calls[k := call])
    case Stop(k) => w.(calls := w.calls - {k})
    case Other(op) => w.(configs := TopicBindings.Apply(w.configs, checks, op))
  }

  predicate Legal(w: World, checks: bool, run: seq<Event>)
    decreases |run|
  {
    run == [] || (Enabled(w, run[0]) && Legal(Apply(w, checks, run[0]), checks, run[1..]))
  }

  function Exec(w: World, checks: bool, run: seq<Event>): World
    requires Legal(w, checks, run)
    decreases |run|
  {
    if run == [] then w else Exec(Apply(w, checks, run[0]), checks, run[1..])
  }

  // ----- the first rule holds under every interleaving -----------------------------------------

  /** No column that was set when the topic was read has been cleared since. */
  predicate Grown(seen: Topic, t: Topic) {
    && (IsSet(seen.llm) ==> IsSet(t.llm)) && (IsSet(seen.prompt) ==> IsSet(t.prompt))
    && (seen.embedding.Some? ==> t.embedding.Some?)
  }

  predicate CallOk(c: Configs, call: Call) {
    call.FetchingOld? || call.FetchingNew? || call.Writing? ==>
      && call.id in c.topics && Grown(call.seen, c.topics[call.id])
      && (IsSet(Coalesce(call.b.prompt, call.seen.prompt)) ==> IsSet(Coalesce(call.b.llm, call.seen.llm)))
  }

  predicate Sane(w: World) {
    Sound(w.configs) && forall k | k in w.calls :: CallOk(w.configs, w.calls[k])
  }

  /** Topics stay and no column is cleared. */
  predicate Onward(c: Configs, c': Configs) {
    forall t | t in c.topics :: t in c'.topics && Grown(c.topics[t], c'.topics[t])
  }

  lemma OnwardKeepsCall(c: Configs, c': Configs, call: Call)
    requires CallOk(c, call) && Onward(c, c')
    ensures CallOk(c', call)
  {
  }

  lemma AdvanceKeepsSound(c: Configs, checks: bool, call: Call)
    requires Sound(c) && CallOk(c, call)
    ensures var (c', call') := Advance(c, checks, call); Sound(c') && CallOk(c', call') && Onward(c, c')
  {
  }

  lemma StepKeepsSane(w: World, checks: bool, e: Event)
    requires Sane(w) && Enabled(w, e)
    ensures Sane(Apply(w, checks, e))
  {
    var w' := Apply(w, checks, e);
    if e.Run? {
      AdvanceKeepsSound(w.configs, checks, w.calls[e.k]);
    } else if e.Other? {
      StepKeepsSound(w.configs, checks, e.op);
    }
    assert Onward(w.configs, w'.configs);
    forall k | k in w'.calls
      ensures CallOk(w'.configs, w'.calls[k])
    {
      if k in w.calls && !(e.Run? && e.k == k) {
        OnwardKeepsCall(w.configs, w'.configs, w.calls[k]);
      }
    }
  }

  /** However updates interleave, with or without the embedding store, a set prompt has a
      set language model: an update never clears a column another relied on. */
  lemma {:induction false} PromptSurvivesInterleaving(w: World, checks: bool, run: seq<Event>)
    requires Sane(w) && Legal(w, checks, run)
    ensures Sane(Exec(w, checks, run))
    decreases |run|
  {
    if run != [] {
      StepKeepsSane(w, checks, run[0]);
      PromptSurvivesInterleaving(Apply(w, checks, run[0]), checks, run[1..]);
    }
  }

  // ----- the second rule, exactly ----------------------------------------------------------------

  /** Configurations keep their provider and model, and are not deleted. */
  predicate KindsKept(c: Configs, c': Configs) {
    forall x | x in c.embeddings :: x in c'.embeddings && c'.embeddings[x].provider == c.embeddings[x].provider
                                 && c'.embeddings[x].model == c.embeddings[x].model
  }

  /** A write whose request read an earlier state, in which the topic had no kind or the one
      it has now: the kind is kept exactly when the topic was bound at the read, or the
      request changes no embedding configuration, or the new one is of the bound kind. */
  lemma WriteKeepsKindIff(read: Configs, now: Configs, id: Id, name: string, b: Bindings)
    requires Sound(read) && Sound(now) && KindsKept(read, now)
    requires UpdateTopic(read, true, true, id, name, b).Ok? && UpdateRow(now, id, name, b).Ok?
    requires Kind(now, id).Some? && (Kind(read, id).Some? ==> Kind(read, id) == Kind(now, id))
    ensures Kind(UpdateRow(now, id, name, b).value, id) == Kind(now, id) <==>
            (Kind(read, id).Some? || b.embedding.None? || SameKind(now, now.topics[id].embedding.value, b.embedding.value))
  {
  }

  /** An unbound topic, two updates with configurations of different kinds: both read, both
      write, and the kind goes from the one to the other. */
  lemma FirstBindingsRace(c: Configs, t: Id, name: string, x: string, y: string)
    requires Sound(c) && t in c.topics && c.topics[t].embedding.None?
    requires x != "" && y != "" && x in c.embeddings && y in c.embeddings && !SameKind(c, x, y)
    ensures var b0, b1 := Bindings(None, Some(x), None, None), Bindings(None, Some(y), None, None);
            var both := [Begin(0, t, name, b0), Begin(1, t, name, b1), Run(0), Run(1)];
            var w := World(c, map[]);
            && Legal(w, true, both) && Legal(Exec(w, true, both), true, [Run(0)])
            && Legal(Exec(Exec(w, true, both), true, [Run(0)]), true, [Run(1)])
            && var once := Exec(Exec(w, true, both), true, [Run(0)]);
               Kind(once.configs, t).Some? && Kind(Exec(once, true, [Run(1)]).configs, t) != Kind(once.configs, t)
  {
    var b0, b1 := Bindings(None, Some(x), None, None), Bindings(None, Some(y), None, None);
    var both := [Begin(0, t, name, b0), Begin(1, t, name, b1), Run(0), Run(1)];
    var w0 := World(c, map[]);
    var w1 := Apply(w0, true, both[0]);
    var w2 := Apply(w1, true, both[1]);
    var w3 := Apply(w2, true, both[2]);
    var w4 := Apply(w3, true, both[3]);
    assert w4 == World(c, map[0 := Writing(t, name, b0, c.topics[t]), 1 := Writing(t, name, b1, c.topics[t])]);
    assert both[1..][1..][1..][1..] == [];
    assert Legal(w4, true, []) && Legal(w3, true, both[1..][1..][1..]) && Legal(w2, true, both[1..][1..]);
    assert Exec(w3, true, both[1..][1..][1..]) == w4 && Exec(w2, true, both[1..][1..]) == w4;
    assert Exec(w0, true, both) == w4;
    var w5 := Apply(w4, true, Run(0));
    assert [Run(0)][1..] == [] && Exec(w4, true, [Run(0)]) == w5;
    var w6 := Apply(w5, true, Run(1));
    assert [Run(1)][1..] == [] && Exec(w5, true, [Run(1)]) == w6;
  }

  // ----- when a kind is settled --------------------------------------------------------------------

  /** References that can be met, now or once the configuration is added. */
  predicate Plausible(b: Bindings) {
    && (b.llm.Some? ==> b.llm.value != "") && (b.embedding.Some? ==> b.embedding.value != "")
    && (b.prompt.Some? ==> b.prompt.value != "") && (b.backend.Some? ==> b.backend.value != "")
  }

  function KindOf(c: Configs, x: string): Option<(string, string)> {
    if x in c.embeddings then Some((c.embeddings[x].provider, c.embeddings[x].model)) else None
  }

  /** A call that has passed its read of the topic, and can still go on to write a kind
      other than `k`: it read the topic unbound, or bound to something of another kind. */
  predicate Threatens(c: Configs, call: Call, t: Id, k: (string, string)) {
    && !call.Fetching? && !call.Done? && call.id == t && Plausible(call.b)
    && (call.Writing? ==> call.b.embedding.Some? && KindOf(c, call.b.embedding.value) != Some(k))
    && (!call.Writing? ==> KindOf(c, call.current).Some? && KindOf(c, call.current) != Some(k))
    && (!call.Writing? ==> call.wanted !in c.embeddings || KindOf(c, call.wanted) == KindOf(c, call.current))
  }

  /** What the in-between states remember of the read, beyond `Sane`. */
  predicate Remembers(c: Configs, call: Call) {
    (call.FetchingOld? || call.FetchingNew?) ==> call.current in c.embeddings && call.b.embedding == Some(call.wanted)
  }

  predicate AllRemember(w: World) {
    forall k | k in w.calls :: Remembers(w.configs, w.calls[k])
  }

  predicate Unthreatened(w: World, t: Id, k: (string, string)) {
    Kind(w.configs, t) == Some(k) && forall n | n in w.calls :: !Threatens(w.configs, w.calls[n], t, k)
  }

  lemma OtherKeepsKinds(c: Configs, op: Op)
    requires !op.UpdatesTopic?
    ensures KindsKept(c, TopicBindings.Apply(c, true, op))
  {
  }

  lemma StepRemembers(w: World, e: Event)
    requires Sane(w) && AllRemember(w) && Enabled(w, e)
    ensures AllRemember(Apply(w, true, e))
  {
    if e.Other? {
      OtherKeepsKinds(w.configs, e.op);
    }
  }

  /** A configuration that was not there when a call read nothing of it cannot make an
      unthreatening call a threat. */
  lemma KindsKeptKeepsHarmless(c: Configs, c': Configs, call: Call, t: Id, k: (string, string))
    requires KindsKept(c, c') && Remembers(c, call) && !Threatens(c, call, t, k)
    ensures !Threatens(c', call, t, k)
  {
  }

  lemma OwnStatementIsHarmless(c: Configs, call: Call, t: Id, k: (string, string))
    requires Sound(c) && CallOk(c, call) && Remembers(c, call) && Kind(c, t) == Some(k) && !Threatens(c, call, t, k)
    ensures var (c', call') := Advance(c, true, call); Kind(c', t) == Some(k) && !Threatens(c', call', t, k) && KindsKept(c, c')
  {
  }

  lemma StepKeepsUnthreatened(w: World, e: Event, t: Id, k: (string, string))
    requires Sane(w) && AllRemember(w) && Enabled(w, e) && Unthreatened(w, t, k)
    ensures Unthreatened(Apply(w, true, e), t, k)
  {
    var w' := Apply(w, true, e);
    if e.Run? {
      OwnStatementIsHarmless(w.configs, w.calls[e.k], t, k);
    } else if e.Other? {
      OtherKeepsKinds(w.configs, e.op);
      StepKeepsKind(w.configs, e.op, t);
    }
    forall n | n in w'.calls
      ensures !Threatens(w'.configs, w'.calls[n], t, k)
    {
      if n in w.calls && !(e.Run? && e.k == n) {
        KindsKeptKeepsHarmless(w.configs, w'.configs, w.calls[n], t, k);
      }
    }
  }

  lemma {:induction false} UnthreatenedIsSettled(w: World, run: seq<Event>, t: Id, k: (string, string))
    requires Sane(w) && AllRemember(w) && Unthreatened(w, t, k) && Legal(w, true, run)
    ensures Kind(Exec(w, true, run).configs, t) == Some(k)
    decreases |run|
  {
    if run != [] {
      StepKeepsSane(w, true, run[0]);
      StepRemembers(w, run[0]);
      StepKeepsUnthreatened(w, run[0], t, k);
      UnthreatenedIsSettled(Apply(w, true, run[0]), run[1..], t, k);
    }
  }

  // ----- and when it is not -------------------------------------------------------------------------

  lemma FirstThenRest(w: World, e: Event, rest: seq<Event>)
    requires Enabled(w, e) && Legal(Apply(w, true, e), true, rest)
    ensures Legal(w, true, [e] + rest) && Exec(w, true, [e] + rest) == Exec(Apply(w, true, e), true, rest)
  {
    assert ([e] + rest)[1..] == rest;
  }

  /** With its references there, a threat strikes when it is run to its end. */
  lemma {:induction false} ThreatStrikes(w: World, n: nat, t: Id, k: (string, string)) returns (run: seq<Event>)
    requires Sane(w) && AllRemember(w) && Kind(w.configs, t) == Some(k)
    requires n in w.calls && Threatens(w.configs, w.calls[n], t, k) && Refer(w.configs, w.calls[n].b)
    ensures Legal(w, true, run) && Kind(Exec(w, true, run).configs, t) != Some(k)
    decreases Rank(w.calls[n])
  {
    var next := Apply(w, true, Run(n));
    if w.calls[n].Writing? {
      run := [];
      assert Kind(next.configs, t) == KindOf(w.configs, w.calls[n].b.embedding.value);
    } else {
      StepKeepsSane(w, true, Run(n));
      StepRemembers(w, Run(n));
      run := ThreatStrikes(next, n, t, k);
    }
    FirstThenRest(w, Run(n), run);
    run := [Run(n)] + run;
  }

  function Named(r: Ref): string {
    if r.Some? then r.value else "any"
  }

  /** What somebody may add so that the references of a call are there. */
  function Additions(b: Bindings, config: EmbeddingConfig): seq<Op> {
    [AddsLlm(Named(b.llm)), AddsPrompt(Named(b.prompt)), AddsBackend(Named(b.backend)), AddsEmbedding(Named(b.embedding), config)]
  }

  function Added(w: World, b: Bindings, config: EmbeddingConfig): World {
    var e := Named(b.embedding);
    w.(configs := w.configs.(llms := w.configs.llms + {Named(b.llm)}, prompts := w.configs.prompts + {Named(b.prompt)},
                             backends := w.configs.backends + {Named(b.backend)},
                             embeddings := if e in w.configs.embeddings then w.configs.embeddings else w.configs.embeddings[e := config]))
  }

  lemma AdditionsAreARun(w: World, b: Bindings, config: EmbeddingConfig, rest: seq<Event>) returns (run: seq<Event>)
    requires Legal(Added(w, b, config), true, rest)
    ensures Legal(w, true, run) && Exec(w, true, run) == Exec(Added(w, b, config), true, rest)
  {
    var ops := Additions(b, config);
    var w1 := Apply(w, true, Other(ops[0]));
    var w2 := Apply(w1, true, Other(ops[1]));
    var w3 := Apply(w2, true, Other(ops[2]));
    assert Apply(w3, true, Other(ops[3])) == Added(w, b, config);
    FirstThenRest(w3, Other(ops[3]), rest);
    FirstThenRest(w2, Other(ops[2]), [Other(ops[3])] + rest);
    FirstThenRest(w1, Other(ops[1]), [Other(ops[2])] + ([Other(ops[3])] + rest));
    FirstThenRest(w, Other(ops[0]), [Other(ops[1])] + ([Other(ops[2])] + ([Other(ops[3])] + rest)));
    run := [Other(ops[0])] + ([Other(ops[1])] + ([Other(ops[2])] + ([Other(ops[3])] + rest)));
  }

  /** A configuration of a kind that suits the threat, should its own not exist yet. */
  function Suitable(c: Configs, call: Call, k: (string, string)): EmbeddingConfig
    requires call.Writing? || ((call.FetchingOld? || call.FetchingNew?) && call.current in c.embeddings)
  {
    if call.Writing? then EmbeddingConfig("", k.0 + "'", k.1, 0, "") else c.embeddings[call.current]
  }

  lemma AddedStillThreatens(w: World, n: nat, t: Id, k: (string, string))
    requires Sane(w) && AllRemember(w) && Kind(w.configs, t) == Some(k)
    requires n in w.calls && Threatens(w.configs, w.calls[n], t, k)
    ensures var call := w.calls[n];
            var w' := Added(w, call.b, Suitable(w.configs, call, k));
            Sane(w') && AllRemember(w') && Kind(w'.configs, t) == Some(k) && Threatens(w'.configs, call, t, k) && Refer(w'.configs, call.b)
  {
  }

  lemma ThreatCanStrike(w: World, n: nat, t: Id, k: (string, string)) returns (run: seq<Event>)
    requires Sane(w) && AllRemember(w) && Kind(w.configs, t) == Some(k)
    requires n in w.calls && Threatens(w.configs, w.calls[n], t, k)
    ensures Legal(w, true, run) && Kind(Exec(w, true, run).configs, t) != Some(k)
  {
    var call := w.calls[n];
    var w' := Added(w, call.b, Suitable(w.configs, call, k));
    AddedStillThreatens(w, n, t, k);
    var strike := ThreatStrikes(w', n, t, k);
    run := AdditionsAreARun(w, call.b, Suitable(w.configs, call, k), strike);
  }

  ghost predicate Settled(w: World, t: Id, k: (string, string)) {
    forall run | Legal(w, true, run) :: Kind(Exec(w, true, run).configs, t) == Some(k)
  }

  /** The kind of a bound topic is settled, whatever happens from here on, exactly when no
      update in flight read the topic before it had this kind and can still write another. */
  lemma KindIsSettledIff(w: World, t: Id, k: (string, string))
    requires Sane(w) && AllRemember(w) && Kind(w.configs, t) == Some(k)
    ensures Settled(w, t, k) <==> Unthreatened(w, t, k)
  {
    if Unthreatened(w, t, k) {
      forall run | Legal(w, true, run)
        ensures Kind(Exec(w, true, run).configs, t) == Some(k)
      {
        UnthreatenedIsSettled(w, run, t, k);
      }
    } else {
      var n :| n in w.calls && Threatens(w.configs, w.calls[n], t, k);
      var run := ThreatCanStrike(w, n, t, k);
    }
  }
}

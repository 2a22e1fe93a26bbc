/** The configurations a topic is bound to, and the two rules about them: a prompt needs a
    language model, and vectors made by one embedding model are not mixed with another's. */
module TopicBindings {
  import opened Tables

  /** An optional request field, or a nullable column, holding a configuration id. */
  type Ref = Option<string>

  datatype Topic = Topic(name: string, owner: string, llm: Ref, embedding: Ref, prompt: Ref, backend: Ref)
  datatype EmbeddingConfig = EmbeddingConfig(name: string, provider: string, model: string, dimensions: int, apiKey: string)
  datatype Configs = Configs(topics: map<Id, Topic>, llms: set<string>, embeddings: map<string, EmbeddingConfig>,
                             prompts: set<string>, backends: set<string>, next: Id)

  datatype Bindings = Bindings(llm: Ref, embedding: Ref, prompt: Ref, backend: Ref)

  function Coalesce(given: Ref, stored: Ref): Ref {
    if given.Some? then given else stored
  }

  predicate IsSet(r: Ref) {
    r.Some? && r.value != ""
  }

  // ----- statements ------------------------------------------------------------------------

  /** The columns are foreign keys; a text that is no id at all is refused likewise. */
  predicate Refer(c: Configs, b: Bindings) {
    && (b.llm.Some? ==> b.llm.value != "" && b.llm.value in c.llms)
    && (b.embedding.Some? ==> b.embedding.value != "" && b.embedding.value in c.embeddings)
    && (b.prompt.Some? ==> b.prompt.value != "" && b.prompt.value in c.prompts)
    && (b.backend.Some? ==> b.backend.value != "" && b.backend.value in c.backends)
  }

  function InsertTopic(c: Configs, name: string, owner: string, b: Bindings): Result<Configs> {
    if !Refer(c, b) then Err(ForeignKey)
    else Ok(c.(topics := c.topics[c.next := Topic(name, owner, b.llm, b.embedding, b.prompt, b.backend)], next := c.next + 1))
  }

  /** The row of a topic after an update: what is given, or else what was there. */
  function Written(t: Topic, name: string, b: Bindings): (w: Topic)
    ensures w.name == name && w.owner == t.owner
    ensures w.llm == (if b.llm.Some? then b.llm else t.llm) && w.embedding == (if b.embedding.Some? then b.embedding else t.embedding)
    ensures w.prompt == (if b.prompt.Some? then b.prompt else t.prompt) && w.backend == (if b.backend.Some? then b.backend else t.backend)
  {
    Topic(name, t.owner, Coalesce(b.llm, t.llm), Coalesce(b.embedding, t.embedding),
          Coalesce(b.prompt, t.prompt), Coalesce(b.backend, t.backend))
  }

  function UpdateRow(c: Configs, id: Id, name: string, b: Bindings): Result<Configs> {
    if id !in c.topics then Err(NotFound)
    else if !Refer(c, b) then Err(ForeignKey)
    else
      Ok(c.(topics := c.topics[id := Written(c.topics[id], name, b)]))
  }

  // ----- the topic service -------------------------------------------------------------------

  function CreateTopic(c: Configs, name: string, owner: string, b: Bindings): Result<Configs> {
    if name == "" then Err(Invalid)
    else if IsSet(b.prompt) && !IsSet(b.llm) then Err(Invalid)
    else InsertTopic(c, name, owner, b)
  }

  /** The change of embedding configuration that is looked at more closely. */
  predicate Rebinds(t: Topic, b: Bindings) {
    b.embedding.Some? && IsSet(t.embedding) && b.embedding.value != t.embedding.value
  }

  predicate SameKind(c: Configs, x: string, y: string)
    requires x in c.embeddings && y in c.embeddings
  {
    c.embeddings[x].provider == c.embeddings[y].provider && c.embeddings[x].model == c.embeddings[y].model
  }

  /** UpdateTopic; `allowed` is the authorizer's verdict, `checks` whether the server was
      given the embedding configuration store. */
  function UpdateTopic(c: Configs, checks: bool, allowed: bool, id: Id, name: string, b: Bindings): Result<Configs> {
    if !allowed then Err(Denied)
    else if id !in c.topics then Err(NotFound)
    else
      var t := c.topics[id];
      if IsSet(Coalesce(b.prompt, t.prompt)) && !IsSet(Coalesce(b.llm, t.llm)) then Err(Invalid)
      else if Rebinds(t, b) && checks && (t.embedding.value !in c.embeddings || b.embedding.value !in c.embeddings) then Err(NotFound)
      else if Rebinds(t, b) && checks && !SameKind(c, t.embedding.value, b.embedding.value) then Err(Invalid)
      else UpdateRow(c, id, name, b)
  }

  /** Only a new name and a new key; an empty field keeps the old one. */
  function UpdateEmbedding(c: Configs, config: string, name: string, apiKey: string): Result<Configs> {
    if config !in c.embeddings then Err(NotFound)
    else
      var e := c.embeddings[config];
      Ok(c.(embeddings := c.embeddings[config := e.(name := if name == "" then e.name else name,
                                                     apiKey := if apiKey == "" then e.apiKey else apiKey)]))
  }

  // ----- runs ----------------------------------------------------------------------------------

  datatype Op =
    | CreatesTopic(name: string, owner: string, b: Bindings)
    | UpdatesTopic(allowed: bool, topic: Id, name: string, b: Bindings)
    | AddsLlm(id: string)
    | AddsPrompt(id: string)
    | AddsBackend(id: string)
    | AddsEmbedding(id: string, config: EmbeddingConfig)
    | UpdatesEmbedding(id: string, name: string, apiKey: string)

  function Or(r: Result<Configs>, c: Configs): Configs {
    if r.Ok? then r.value else c
  }

  /** One request; a new configuration gets an id that is not taken. */
  function Apply(c: Configs, checks: bool, op: Op): Configs {
    match op
    case CreatesTopic(name, owner, b) => Or(CreateTopic(c, name, owner, b), c)
    case UpdatesTopic(allowed, id, name, b) => Or(UpdateTopic(c, checks, allowed, id, name, b), c)
    case AddsLlm(id) => c.(llms := c.llms + {id})
    case AddsPrompt(id) => c.(prompts := c.prompts + {id})
    case AddsBackend(id) => c.(backends := c.backends + {id})
    case AddsEmbedding(id, config) => if id in c.embeddings then c else c.(embeddings := c.embeddings[id := config])
    case UpdatesEmbedding(id, name, apiKey) => Or(UpdateEmbedding(c, id, name, apiKey), c)
  }

  function Run(c: Configs, checks: bool, ops: seq<Op>): Configs
    decreases |ops|
  {
    if ops == [] then c else Run(Apply(c, checks, ops[0]), checks, ops[1..])
  }

  /** The state the two rules need to live on. */
  predicate Sound(c: Configs) {
    && (forall t | t in c.topics :: t < c.next)
    && (forall t | t in c.topics && c.topics[t].embedding.Some? ::
          c.topics[t].embedding.value != "" && c.topics[t].embedding.value in c.embeddings)
    && (forall t | t in c.topics :: IsSet(c.topics[t].prompt) ==> IsSet(c.topics[t].llm))
  }

  /** The provider and model the vectors of a topic come from. */
  function Kind(c: Configs, t: Id): Option<(string, string)> {
    if t in c.topics && c.topics[t].embedding.Some? && c.topics[t].embedding.value in c.embeddings then
      var e := c.embeddings[c.topics[t].embedding.value];
      Some((e.provider, e.model))
    else None
  }

  lemma StepKeepsSound(c: Configs, checks: bool, op: Op)
    requires Sound(c)
    ensures Sound(Apply(c, checks, op))
  {
  }

  lemma StepKeepsKind(c: Configs, op: Op, t: Id)
    requires Sound(c) && Kind(c, t).Some?
    ensures Kind(Apply(c, true, op), t) == Kind(c, t)
  {
  }

  /** Whatever is requested, a set prompt has a set language model. */
  lemma {:induction false} PromptAlwaysHasModel(c: Configs, checks: bool, ops: seq<Op>)
    requires Sound(c)
    ensures Sound(Run(c, checks, ops))
    decreases |ops|
  {
    if ops != [] {
      StepKeepsSound(c, checks, ops[0]);
      PromptAlwaysHasModel(Apply(c, checks, ops[0]), checks, ops[1..]);
    }
  }

  /** Once a topic has an embedding configuration, its provider and model are settled. */
  lemma {:induction false} KindIsSettled(c: Configs, ops: seq<Op>, t: Id)
    requires Sound(c) && Kind(c, t).Some?
    ensures Kind(Run(c, true, ops), t) == Kind(c, t)
    decreases |ops|
  {
    if ops != [] {
      StepKeepsSound(c, true, ops[0]);
      StepKeepsKind(c, ops[0], t);
      KindIsSettled(Apply(c, true, ops[0]), ops[1..], t);
    }
  }

  // ----- what is written ----------------------------------------------------------------------------

  /** An accepted update gives the topic its new name and the configurations that were given,
      and keeps its owner and the others; nothing else changes. It is refused to whom may not
      write, and for a topic that is not there. */
  lemma UpdateWrites(c: Configs, checks: bool, allowed: bool, id: Id, name: string, b: Bindings)
    ensures var r := UpdateTopic(c, checks, allowed, id, name, b);
            && (r == Err(Denied) <==> !allowed)
            && (id !in c.topics && allowed ==> r == Err(NotFound))
            && (r.Ok? ==> id in c.topics && r.value == c.(topics := c.topics[id := Written(c.topics[id], name, b)]))
  {
  }

  /** A reference to a configuration that is there, or none. */
  predicate Exists(r: Ref, configs: set<string>) {
    r.None? || (r.value != "" && r.value in configs)
  }

  /** A topic is created exactly when it has a name, its prompt comes with a model, and all
      its configurations are there; then it is the one new row, as requested. */
  lemma CreateWritesIff(c: Configs, name: string, owner: string, b: Bindings)
    ensures CreateTopic(c, name, owner, b).Ok? <==>
      && name != "" && (b.prompt.Some? && b.prompt.value != "" ==> b.llm.Some? && b.llm.value != "")
      && Exists(b.llm, c.llms) && Exists(b.embedding, c.embeddings.Keys) && Exists(b.prompt, c.prompts) && Exists(b.backend, c.backends)
    ensures CreateTopic(c, name, owner, b).Ok? ==>
      CreateTopic(c, name, owner, b).value ==
      c.(topics := c.topics[c.next := Topic(name, owner, b.llm, b.embedding, b.prompt, b.backend)], next := c.next + 1)
  {
  }

  predicate AllExist(c: Configs) {
    forall t | t in c.topics ::
      && Exists(c.topics[t].llm, c.llms) && Exists(c.topics[t].embedding, c.embeddings.Keys)
      && Exists(c.topics[t].prompt, c.prompts) && Exists(c.topics[t].backend, c.backends)
  }

  lemma StepKeepsAllExist(c: Configs, checks: bool, op: Op)
    requires AllExist(c)
    ensures AllExist(Apply(c, checks, op))
  {
  }

  /** Over every run every configuration a topic names is there. */
  lemma {:induction false} ReferencesAlwaysExist(c: Configs, checks: bool, ops: seq<Op>)
    requires AllExist(c)
    ensures AllExist(Run(c, checks, ops))
    decreases |ops|
  {
    if ops != [] {
      StepKeepsAllExist(c, checks, ops[0]);
      ReferencesAlwaysExist(Apply(c, checks, ops[0]), checks, ops[1..]);
    }
  }

  /** Updating an embedding configuration changes its name and key where new ones are given. */
  lemma EmbeddingUpdateWrites(c: Configs, config: string, name: string, apiKey: string)
    ensures UpdateEmbedding(c, config, name, apiKey).Ok? <==> config in c.embeddings
    ensures config in c.embeddings ==>
      var e := c.embeddings[config];
      UpdateEmbedding(c, config, name, apiKey).value ==
      c.(embeddings := c.embeddings[config := EmbeddingConfig(if name != "" then name else e.name, e.provider, e.model, e.dimensions,
                                                              if apiKey != "" then apiKey else e.apiKey)])
  {
  }

  // ----- exactly when ------------------------------------------------------------------------------

  /** With valid references an update is accepted exactly when both rules will hold of what
      the update writes: the checks are neither too weak nor too strong. */
  lemma UpdateAcceptedIff(c: Configs, id: Id, name: string, b: Bindings)
    requires Sound(c) && id in c.topics && Refer(c, b)
    ensures var written := UpdateRow(c, id, name, b).value;
            UpdateTopic(c, true, true, id, name, b).Ok? <==>
            && (IsSet(written.topics[id].prompt) ==> IsSet(written.topics[id].llm))
            && (Kind(c, id).Some? ==> Kind(written, id) == Kind(c, id))
    ensures UpdateTopic(c, true, true, id, name, b).Ok? ==> UpdateTopic(c, true, true, id, name, b) == UpdateRow(c, id, name, b)
  {
  }

  /** A server without the embedding store lets the kind change, exactly when the new
      configuration is of another kind. */
  lemma UncheckedKeepsKindIff(c: Configs, id: Id, name: string, b: Bindings)
    requires Sound(c) && Kind(c, id).Some? && UpdateTopic(c, false, true, id, name, b).Ok?
    ensures Kind(UpdateTopic(c, false, true, id, name, b).value, id) == Kind(c, id) <==>
            (Rebinds(c.topics[id], b) ==> SameKind(c, c.topics[id].embedding.value, b.embedding.value))
  {
  }

  /** A deleted language model leaves the column of its topics empty. */
  function DeleteLlm(c: Configs, config: string): Configs {
    c.(llms := c.llms - {config},
       topics := map t | t in c.topics ::
         if c.topics[t].llm == Some(config) then c.topics[t].(llm := None) else c.topics[t])
  }

  /** Deleting a language model keeps the first rule exactly when no topic with a prompt uses it. */
  lemma DeletingModelKeepsRuleIff(c: Configs, config: string)
    requires Sound(c)
    ensures Sound(DeleteLlm(c, config)) <==> forall t | t in c.topics && c.topics[t].llm == Some(config) :: !IsSet(c.topics[t].prompt)
  {
    var after := DeleteLlm(c, config);
    if t :| t in c.topics && c.topics[t].llm == Some(config) && IsSet(c.topics[t].prompt) {
      assert t in after.topics && after.topics[t].llm == None;
    }
  }

  /** And every configuration a topic names is still there. */
  lemma DeletingModelKeepsReferences(c: Configs, config: string)
    requires AllExist(c)
    ensures AllExist(DeleteLlm(c, config)) && config !in DeleteLlm(c, config).llms
    ensures forall t | t in c.topics && c.topics[t].llm != Some(config) :: DeleteLlm(c, config).topics[t] == c.topics[t]
  {
  }

  class TopicServer {
    var configs: Configs
    const checks: bool

    constructor (configs: Configs, checks: bool)
      ensures this.configs == configs && this.checks == checks
    {
      this.configs := configs;
      this.checks := checks;
    }

    method Create(name: string, owner: string, b: Bindings) returns (r: Result<Id>)
      modifies this
      ensures match CreateTopic(old(configs), name, owner, b)
              case Ok(c) => r == Ok(old(configs).next) && configs == c
              case Err(e) => r == Err(e) && configs == old(configs)
    {
      if name == "" {
        return Err(Invalid);
      }
      if b.prompt.Some? && b.prompt.value != "" {
        if b.llm.None? || b.llm.value == "" {
          return Err(Invalid);
        }
      }
      var inserted := InsertTopic(configs, name, owner, b);
      if inserted.Err? {
        return Err(inserted.error);
      }
      r := Ok(configs.next);
      configs := inserted.value;
    }

    method Update(allowed: bool, id: Id, name: string, b: Bindings) returns (r: Result<()>)
      modifies this
      ensures match UpdateTopic(old(configs), checks, allowed, id, name, b)
              case Ok(c) => r == Ok(()) && configs == c
              case Err(e) => r == Err(e) && configs == old(configs)
    {
      if !allowed {
        return Err(Denied);
      }
      if id !in configs.topics {
        return Err(NotFound);
      }
      var existing := configs.topics[id];
      var effectivePrompt := existing.prompt;
      if b.prompt.Some? {
        effectivePrompt := b.prompt;
      }
      var effectiveLlm := existing.llm;
      if b.llm.Some? {
        effectiveLlm := b.llm;
      }
      if effectivePrompt.Some? && effectivePrompt.value != "" {
        if effectiveLlm.None? || effectiveLlm.value == "" {
          return Err(Invalid);
        }
      }
      if b.embedding.Some? && existing.embedding.Some? && existing.embedding.value != "" && b.embedding.value != existing.embedding.value {
        if checks {
          if existing.embedding.value !in configs.embeddings || b.embedding.value !in configs.embeddings {
            return Err(NotFound);
          }
          var oldConfig, newConfig := configs.embeddings[existing.embedding.value], configs.embeddings[b.embedding.value];
          if oldConfig.provider != newConfig.provider || oldConfig.model != newConfig.model {
            return Err(Invalid);
          }
        }
      }
      var written := UpdateRow(configs, id, name, b);
      if written.Err? {
        return Err(written.error);
      }
      configs := written.value;
      r := Ok(());
    }
  }
}

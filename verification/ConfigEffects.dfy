/** What the edits of the configuration change and what they leave alone, and what an agent resolves to under overrides. */
module ConfigEffects {
  import opened Domain
  import opened Config

  /* ---- resolving with overrides ---- */

  /** An override that is given counts. */
  function Chosen(override: string, bound: string): string {
    if override == "" then bound else override
  }

  /** A provider can serve a model over a protocol, with its selected key. */
  predicate Serves(provider: Provider, modelId: string, protocol: Protocol, requireKey: bool) {
    && (exists m :: m in provider.models && m.id == modelId)
    && protocol in provider.protocols
    && (exists k :: k in provider.keys && k.id == provider.selectedKey)
    && (requireKey ==> FirstKey(provider.keys, provider.selectedKey).secret != "")
  }

  /** The first key with the identifier, or no key at all. */
  function FirstKey(keys: seq<ApiKey>, id: string): ApiKey {
    if keys == [] then ApiKey("", "") else if keys[0].id == id then keys[0] else FirstKey(keys[1..], id)
  }

  lemma {:induction false} FirstKeyIs(keys: seq<ApiKey>, id: string)
    ensures FindKey(keys, id).Some? ==> FirstKey(keys, id) == FindKey(keys, id).value
  {
    if keys != [] {
      FirstKeyIs(keys[1..], id);
    }
  }

  /** Claude agents speak Anthropic's protocol and nothing else; OpenAI agents anything but that. */
  predicate Speaks(runtime: Runtime, protocol: Protocol) {
    runtime == ClaudeAgent <==> protocol == Anthropic
  }

  /** What an agent resolves to: the chosen provider, its model, the chosen protocol, and the secret of its selected key. */
  predicate ResolvedTo(r: Resolved, providerId: string, modelId: string, protocol: Protocol) {
    && r.provider.id == providerId
    && r.model in r.provider.models && r.model.id == modelId
    && r.protocol == protocol
    && r.secret == FirstKey(r.provider.keys, r.provider.selectedKey).secret
  }

  /** In any configuration, valid or not, an agent resolves if and only if it exists and the provider chosen by the override or
      else by its binding serves the chosen model over the chosen protocol, which the agent's runtime must speak; and it
      resolves to these. */
  lemma OverridesResolveIff(b: Bundle, agent: string, providerId: string, modelId: string, protocol: Option<Protocol>, requireKey: bool)
    ensures var r := ResolveAgent(b, agent, providerId, modelId, protocol, requireKey);
      && (agent !in b.agents ==> r.None?)
      && (agent in b.agents ==>
            var binding := b.agents[agent];
            var selected := if protocol.Some? then protocol.value else binding.protocol;
            var provider := FindProvider(b.models, Chosen(providerId, binding.providerId));
            && (r.Some? <==> provider.Some? && Serves(provider.value, Chosen(modelId, binding.modelId), selected, requireKey)
                             && Speaks(binding.runtime, selected))
            && (r.Some? ==> r.value.provider == provider.value
                            && ResolvedTo(r.value, Chosen(providerId, binding.providerId), Chosen(modelId, binding.modelId), selected)))
  {
    if agent in b.agents {
      var provider := FindProvider(b.models, Chosen(providerId, b.agents[agent].providerId));
      if provider.Some? {
        FirstKeyIs(provider.value.keys, provider.value.selectedKey);
      }
    }
  }

  /* ---- what a valid configuration holds ---- */

  predicate Defined(agents: map<string, Binding>, name: string, role: AgentRole, runtime: Runtime) {
    name in agents && agents[name].role == role && agents[name].runtime == runtime
  }

  ghost predicate SceneExists(scenes: seq<Scene>, id: string) {
    exists i :: 0 <= i < |scenes| && scenes[i].id == id
  }

  const SCENE_IDS: set<string> := {
    "penetration_test", "incident_response", "vulnerability_research", "reverse_engineering", "pwn", "security_misc",
    "cryptography", "forensics"}

  /** The supervisor, the two workers and the reporter are there with their roles and runtimes. */
  predicate AgentsThere(agents: map<string, Binding>) {
    && Defined(agents, "supervisor", SupervisorRole, OpenaiAgents)
    && Defined(agents, "worker-openai", WorkerRole, OpenaiAgents)
    && Defined(agents, "worker-claude", WorkerRole, ClaudeAgent)
    && Defined(agents, "reporter", ReporterRole, OpenaiAgents)
  }

  /** Each of the eight scenes is there, and no scene twice. */
  ghost predicate ScenesThere(scenes: seq<Scene>) {
    && (forall id :: id in SCENE_IDS ==> SceneExists(scenes, id))
    && (forall i, j :: 0 <= i < j < |scenes| ==> scenes[i].id != scenes[j].id)
  }

  predicate ImagesThere(b: Bundle) {
    forall a :: a in b.agents && b.agents[a].role == WorkerRole ==> a in b.runtime.workerImages
  }

  lemma ScenesCompleteIff(scenes: seq<Scene>)
    ensures ScenesComplete(TGA3_RULES, scenes) <==> ScenesThere(scenes)
  {
    var ids := set i | 0 <= i < |scenes| :: scenes[i].id;
    assert TGA3_RULES.scenes == SCENE_IDS;
    forall id ensures id in ids <==> SceneExists(scenes, id) {
    }
  }

  lemma AgentsCompleteIff(agents: map<string, Binding>)
    ensures AgentsComplete(TGA3_RULES, agents) <==> AgentsThere(agents)
  {
    var rules := TGA3_RULES.agents;
    assert rules.Keys == {"supervisor", "worker-openai", "worker-claude", "reporter"};
    assert rules["supervisor"] == (SupervisorRole, OpenaiAgents) && rules["worker-openai"] == (WorkerRole, OpenaiAgents);
    assert rules["worker-claude"] == (WorkerRole, ClaudeAgent) && rules["reporter"] == (ReporterRole, OpenaiAgents);
  }

  lemma ValidParts(rules: Rules, b: Bundle, agents: bool, scenes: bool)
    requires agents <==> AgentsComplete(rules, b.agents)
    requires scenes <==> ScenesComplete(rules, b.scenes)
    ensures Valid(rules, b) <==> agents && scenes && AllServed(b.models, b.agents) && ImagesThere(b)
  {
    AllServedIff(b.models, b.agents);
  }

  /** The validation accepts exactly the configurations with these agents and scenes in which every agent is served by its provider
      and every worker has an image. */
  lemma ValidIff(b: Bundle)
    ensures Valid(TGA3_RULES, b) <==>
      AgentsThere(b.agents) && ScenesThere(b.scenes) && AllServed(b.models, b.agents) && ImagesThere(b)
  {
    AgentsCompleteIff(b.agents);
    ScenesCompleteIff(b.scenes);
    ValidParts(TGA3_RULES, b, AgentsThere(b.agents), ScenesThere(b.scenes));
  }

  /* ---- applying a document ---- */

  /** A scene document may differ in the system prompts only. */
  predicate PromptsOnly(scenes: seq<Scene>, scenes1: seq<Scene>) {
    |scenes1| == |scenes| && forall i :: 0 <= i < |scenes| ==> scenes1[i] == scenes[i].(systemPrompt := scenes1[i].systemPrompt)
  }

  lemma SameScenesIff(scenes: seq<Scene>, scenes1: seq<Scene>)
    ensures SameScenes(scenes, scenes1) <==> PromptsOnly(scenes, scenes1)
  {
    forall i | 0 <= i < |scenes| && |scenes1| == |scenes|
      ensures scenes1[i].id == scenes[i].id && scenes1[i].name == scenes[i].name && scenes1[i].description == scenes[i].description
         <==> scenes1[i] == scenes[i].(systemPrompt := scenes1[i].systemPrompt)
    {
    }
  }

  lemma SameScenesComplete(rules: Rules, scenes: seq<Scene>, scenes1: seq<Scene>)
    requires ScenesComplete(rules, scenes) && SameScenes(scenes, scenes1)
    ensures ScenesComplete(rules, scenes1)
  {
    forall id | id in rules.scenes ensures id in set i | 0 <= i < |scenes1| :: scenes1[i].id {
      var i :| 0 <= i < |scenes| && scenes[i].id == id;
      assert scenes1[i].id == id;
    }
  }

  /** Every agent's provider, model and protocol are among these. */
  predicate AllServed(models: seq<Provider>, agents: map<string, Binding>) {
    forall a :: a in agents ==> ServedBy(models, agents[a])
  }

  predicate ServedBy(models: seq<Provider>, binding: Binding) {
    var provider := FindProvider(models, binding.providerId);
    && provider.Some? && (exists m :: m in provider.value.models && m.id == binding.modelId)
    && binding.protocol in provider.value.protocols && Speaks(binding.runtime, binding.protocol)
  }

  lemma ServedIff(models: seq<Provider>, binding: Binding)
    ensures BindingOk(models, binding) <==> ServedBy(models, binding)
  {
  }

  lemma AllServedIff(models: seq<Provider>, agents: map<string, Binding>)
    ensures BindingsOk(models, agents) <==> AllServed(models, agents)
  {
    forall a | a in agents ensures BindingOk(models, agents[a]) <==> ServedBy(models, agents[a]) {
      ServedIff(models, agents[a]);
    }
  }

  /** In a valid configuration each document is refused for its own reason only: models when an agent is no longer served,
      agents when one is redefined or not served, scenes when more than a prompt changes, the runtime when a worker has no
      image. */
  lemma ApplySucceedsIff(rules: Rules, b: Bundle, doc: Document)
    requires Valid(rules, b)
    ensures Edited(rules, b, ApplyDocument(doc)).Some? <==>
      match doc
      case ModelsDoc(models) => AllServed(models, b.agents)
      case AgentsDoc(agents) => SameDefinitions(b.agents, agents) && AllServed(b.models, agents)
      case ScenesDoc(scenes) => PromptsOnly(b.scenes, scenes)
      case RuntimeDoc(runtime) => forall a :: a in b.agents && b.agents[a].role == WorkerRole ==> a in runtime.workerImages
  {
    match doc
    case ModelsDoc(models) => AllServedIff(models, b.agents);
    case AgentsDoc(agents) =>
      AllServedIff(b.models, agents);
      if SameDefinitions(b.agents, agents) {
        DefinitionsCarry(rules, b.agents, agents, b.runtime);
      }
    case ScenesDoc(scenes) =>
      SameScenesIff(b.scenes, scenes);
      if SameScenes(b.scenes, scenes) {
        SameScenesComplete(rules, b.scenes, scenes);
      }
    case RuntimeDoc(_) =>
  }

  /** An applied document replaces its own part of the configuration and no other. */
  lemma ApplyReplacesOwnDocument(rules: Rules, b: Bundle, doc: Document)
    requires Edited(rules, b, ApplyDocument(doc)).Some?
    ensures var b1 := Step(rules, b, ApplyDocument(doc));
      && b1.models == (if doc.ModelsDoc? then doc.models else b.models)
      && b1.agents == (if doc.AgentsDoc? then doc.agents else b.agents)
      && b1.scenes == (if doc.ScenesDoc? then doc.scenes else b.scenes)
      && b1.runtime == (if doc.RuntimeDoc? then doc.runtime else b.runtime)
  {
  }

  /* ---- deleting a provider ---- */

  lemma {:induction false} WithoutIsGone(models: seq<Provider>, id: string)
    ensures forall p :: p in Without(models, id) <==> p in models && p.id != id
  {
    if models != [] {
      WithoutIsGone(models[1..], id);
    }
  }

  /** A deleted provider is gone, every other one can be found as before, and nothing else changes. */
  lemma DeletionRemoves(rules: Rules, b: Bundle, id: string, other: string)
    requires Edited(rules, b, DeleteProvider(id)).Some?
    ensures var b1 := Step(rules, b, DeleteProvider(id));
      && FindProvider(b1.models, id).None?
      && (other != id ==> FindProvider(b1.models, other) == FindProvider(b.models, other))
      && (forall p :: p in b1.models <==> p in b.models && p.id != id)
      && b1.agents == b.agents && b1.scenes == b.scenes && b1.runtime == b.runtime
  {
    WithoutIsGone(b.models, id);
    if other != id {
      FindWithout(b.models, id, other);
    }
  }

  /* ---- discovery ---- */

  /** Discovery gives a provider exactly the models found, in their order, under the names found; the other providers and the
      documents it does not own stay. */
  lemma DiscoveryReplacesModels(rules: Rules, b: Bundle, id: string, baseUrl: string, selectedKey: string, remotes: seq<string>, other: string)
    requires Edited(rules, b, Discover(id, baseUrl, selectedKey, remotes)).Some?
    ensures var b1 := Step(rules, b, Discover(id, baseUrl, selectedKey, remotes));
            var before, after := FindProvider(b.models, id), FindProvider(b1.models, id);
      && before.Some? && after.Some?
      && after.value == before.value.(models := after.value.models)
      && |after.value.models| == |remotes|
      && (forall i :: 0 <= i < |remotes| ==> after.value.models[i].name == remotes[i])
      && (other != id ==> FindProvider(b1.models, other) == FindProvider(b.models, other))
      && b1.scenes == b.scenes && b1.runtime == b.runtime && b1.agents.Keys == b.agents.Keys
  {
    var found := AdoptAll(FindProvider(b.models, id).value.models, remotes);
    FindAfterSet(b.models, id, found, id);
    FindAfterSet(b.models, id, found, other);
  }

  predicate Distinct(models: seq<Model>) {
    forall i, j :: 0 <= i < j < |models| ==> models[i].name != models[j].name && models[i].id != models[j].id
  }

  lemma {:induction false} LastByNameIs(models: seq<Model>, m: Model)
    requires m in models && Distinct(models)
    ensures LastByName(models, m.name) == Some(m)
  {
    var init := models[..|models| - 1];
    if models[|models| - 1] != m {
      assert m in init;
      var i :| 0 <= i < |init| && models[i] == m;
      assert models[i].name != models[|models| - 1].name;
      LastByNameIs(init, m);
    }
  }

  /** A model whose name is found again keeps its identifier, whatever its identifier is. */
  lemma FoundModelKeepsId(models: seq<Model>, remotes: seq<string>, m: Model)
    requires m in models && Distinct(models) && m.name in remotes
    ensures m in AdoptAll(models, remotes)
  {
    var i :| 0 <= i < |remotes| && remotes[i] == m.name;
    LastByNameIs(models, m);
    assert AdoptAll(models, remotes)[i] == m;
  }

  /** Where a provider's models have distinct names and identifiers, an agent bound to a model that is found again keeps its
      binding; one bound to another provider always does. */
  lemma DiscoveryKeepsBinding(
    rules: Rules, b: Bundle, id: string, baseUrl: string, selectedKey: string, remotes: seq<string>, agent: string, m: Model)
    requires Valid(rules, b) && Edited(rules, b, Discover(id, baseUrl, selectedKey, remotes)).Some? && agent in b.agents
    requires b.agents[agent].providerId == id ==>
             && m in FindProvider(b.models, id).value.models && m.id == b.agents[agent].modelId && m.name in remotes
             && Distinct(FindProvider(b.models, id).value.models)
    ensures var b1 := Step(rules, b, Discover(id, baseUrl, selectedKey, remotes));
      agent in b1.agents && b1.agents[agent] == b.agents[agent]
  {
    var models := FindProvider(b.models, id).value.models;
    var found := AdoptAll(models, remotes);
    if b.agents[agent].providerId == id {
      FoundModelKeepsId(models, remotes, m);
      var i :| 0 <= i < |found| && found[i] == m;
      assert !Lost(b.agents[agent], id, found);
    }
  }

  /** A name nobody had becomes the identifier of its model, unless a model has it as its identifier already. */
  lemma NewModelIsNamed(models: seq<Model>, remote: string)
    requires forall i :: 0 <= i < |models| ==> models[i].name != remote
    ensures Adopt(models, remote) == Model(remote, remote)
  {
    NoneByName(models, remote);
    LastByIdIs(models, remote);
  }

  lemma {:induction false} NoneByName(models: seq<Model>, name: string)
    requires forall i :: 0 <= i < |models| ==> models[i].name != name
    ensures LastByName(models, name).None?
  {
    if models != [] {
      NoneByName(models[..|models| - 1], name);
    }
  }

  lemma {:induction false} LastByIdIs(models: seq<Model>, id: string)
    ensures LastById(models, id).Some? ==> LastById(models, id).value.id == id
  {
    if models != [] {
      LastByIdIs(models[..|models| - 1], id);
    }
  }
}

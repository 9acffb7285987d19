/** What makes the configuration valid, and the edits the API offers (tga3/src/tga3/config.py and app.py). */
module Config {
  import opened Domain

  datatype Protocol = OpenaiResponses | OpenaiChat | Anthropic

  datatype Runtime = OpenaiAgents | ClaudeAgent

  datatype AgentRole = SupervisorRole | WorkerRole | ReporterRole

  datatype ApiKey = ApiKey(id: string, secret: string)

  datatype Model = Model(id: string, name: string)

  datatype Provider = Provider(
    id: string, builtIn: bool, protocols: seq<Protocol>, baseUrl: string,
    keys: seq<ApiKey>, selectedKey: string, models: seq<Model>)

  datatype Binding = Binding(
    displayName: string, role: AgentRole, runtime: Runtime, providerId: string, modelId: string, protocol: Protocol,
    systemPrompt: string)

  datatype Scene = Scene(id: string, name: string, description: string, systemPrompt: string)

  /** Of runtime.json only the images matter to other documents. */
  datatype Runtimes = Runtimes(workerImages: map<string, string>, rest: string)

  /** The four documents, which are also the live configuration. */
  datatype Bundle = Bundle(models: seq<Provider>, agents: map<string, Binding>, scenes: seq<Scene>, runtime: Runtimes)

  /** The class constants of TGA3Config: which agents and scenes every configuration has. */
  datatype Rules = Rules(agents: map<string, (AgentRole, Runtime)>, scenes: set<string>)

  const TGA3_RULES := Rules(
    map["supervisor" := (SupervisorRole, OpenaiAgents),
        "worker-openai" := (WorkerRole, OpenaiAgents),
        "worker-claude" := (WorkerRole, ClaudeAgent),
        "reporter" := (ReporterRole, OpenaiAgents)],
    {"penetration_test", "incident_response", "vulnerability_research", "reverse_engineering", "pwn", "security_misc",
     "cryptography", "forensics"})

  /* ---- look-ups: the first item with the identifier ---- */

  function FindProvider(models: seq<Provider>, id: string): (r: Option<Provider>)
    ensures r.Some? ==> r.value in models && r.value.id == id
    ensures r.None? ==> forall i :: 0 <= i < |models| ==> models[i].id != id
  {
    if models == [] then None else if models[0].id == id then Some(models[0]) else FindProvider(models[1..], id)
  }

  function FindModel(models: seq<Model>, id: string): (r: Option<Model>)
    ensures r.Some? ==> r.value in models && r.value.id == id
    ensures r.None? ==> forall i :: 0 <= i < |models| ==> models[i].id != id
  {
    if models == [] then None else if models[0].id == id then Some(models[0]) else FindModel(models[1..], id)
  }

  function FindKey(keys: seq<ApiKey>, id: string): (r: Option<ApiKey>)
    ensures r.Some? ==> r.value in keys && r.value.id == id
    ensures r.None? ==> forall i :: 0 <= i < |keys| ==> keys[i].id != id
  {
    if keys == [] then None else if keys[0].id == id then Some(keys[0]) else FindKey(keys[1..], id)
  }

  /** validate_runtime_protocol: each SDK speaks its own family of protocols. */
  predicate Compatible(runtime: Runtime, protocol: Protocol) {
    !(runtime == ClaudeAgent && protocol != Anthropic) && !(runtime == OpenaiAgents && protocol == Anthropic)
  }

  /* ---- _validate_values ---- */

  predicate AgentsComplete(rules: Rules, agents: map<string, Binding>) {
    forall a :: a in rules.agents ==>
      a in agents && agents[a].role == rules.agents[a].0 && agents[a].runtime == rules.agents[a].1
  }

  predicate ScenesComplete(rules: Rules, scenes: seq<Scene>) {
    && (forall i, j :: 0 <= i < j < |scenes| ==> scenes[i].id != scenes[j].id)
    && rules.scenes <= set i | 0 <= i < |scenes| :: scenes[i].id
  }

  predicate BindingOk(models: seq<Provider>, binding: Binding) {
    var provider := FindProvider(models, binding.providerId);
    && provider.Some?
    && FindModel(provider.value.models, binding.modelId).Some?
    && binding.protocol in provider.value.protocols
    && Compatible(binding.runtime, binding.protocol)
  }

  predicate BindingsOk(models: seq<Provider>, agents: map<string, Binding>) {
    forall a :: a in agents ==> BindingOk(models, agents[a])
  }

  predicate ImagesComplete(agents: map<string, Binding>, runtime: Runtimes) {
    forall a :: a in agents && agents[a].role == WorkerRole ==> a in runtime.workerImages
  }

  predicate Valid(rules: Rules, b: Bundle) {
    && AgentsComplete(rules, b.agents)
    && ScenesComplete(rules, b.scenes)
    && BindingsOk(b.models, b.agents)
    && ImagesComplete(b.agents, b.runtime)
  }

  /* ---- resolve_agent ---- */

  datatype Resolved = Resolved(provider: Provider, model: Model, protocol: Protocol, secret: string)

  /** None when the source raises; an override that is None or empty falls back to the binding. */
  function ResolveAgent(
    b: Bundle, agent: string, providerId: string, modelId: string, protocol: Option<Protocol>, requireKey: bool)
    : Option<Resolved>
  {
    if agent !in b.agents then None
    else
      var binding := b.agents[agent];
      var provider := FindProvider(b.models, if providerId != "" then providerId else binding.providerId);
      if provider.None? then None
      else
        var model := FindModel(provider.value.models, if modelId != "" then modelId else binding.modelId);
        var selected := if protocol.Some? then protocol.value else binding.protocol;
        var key := FindKey(provider.value.keys, provider.value.selectedKey);
        if model.None? || !Compatible(binding.runtime, selected) || selected !in provider.value.protocols || key.None?
           || (requireKey && key.value.secret == "")
        then None
        else Some(Resolved(provider.value, model.value, selected, key.value.secret))
  }

  predicate HasKey(b: Bundle, providerId: string, requireKey: bool) {
    var provider := FindProvider(b.models, providerId);
    provider.Some? && FindKey(provider.value.keys, provider.value.selectedKey).Some?
    && (requireKey ==> FindKey(provider.value.keys, provider.value.selectedKey).value.secret != "")
  }

  /** In a valid configuration an agent resolves, to the provider, model and protocol it is bound to, exactly when its
      provider has its selected key: validation looks at everything else. */
  lemma ResolvesIff(rules: Rules, b: Bundle, agent: string, requireKey: bool)
    requires Valid(rules, b) && agent in b.agents
    ensures var r := ResolveAgent(b, agent, "", "", None, requireKey);
      && (r.Some? <==> HasKey(b, b.agents[agent].providerId, requireKey))
      && (r.Some? ==> Bound(b.agents[agent], r.value))
  {
    assert BindingOk(b.models, b.agents[agent]);
  }

  predicate Bound(binding: Binding, r: Resolved) {
    && r.provider.id == binding.providerId
    && r.model in r.provider.models && r.model.id == binding.modelId
    && r.protocol == binding.protocol && r.protocol in r.provider.protocols
    && (r.protocol == Anthropic <==> binding.runtime == ClaudeAgent)
  }

  /* ---- edits ---- */

  datatype Document =
    | ModelsDoc(models: seq<Provider>)
    | AgentsDoc(agents: map<string, Binding>)
    | ScenesDoc(scenes: seq<Scene>)
    | RuntimeDoc(runtime: Runtimes)

  function With(b: Bundle, doc: Document): Bundle {
    match doc
    case ModelsDoc(models) => b.(models := models)
    case AgentsDoc(agents) => b.(agents := agents)
    case ScenesDoc(scenes) => b.(scenes := scenes)
    case RuntimeDoc(runtime) => b.(runtime := runtime)
  }

  /** Agents cannot be added, removed or renamed, and their names, roles and runtimes are fixed. */
  predicate SameDefinitions(agents: map<string, Binding>, agents1: map<string, Binding>) {
    && agents1.Keys == agents.Keys
    && forall a :: a in agents ==>
         && agents1[a].displayName == agents[a].displayName
         && agents1[a].role == agents[a].role
         && agents1[a].runtime == agents[a].runtime
  }

  predicate SameScenes(scenes: seq<Scene>, scenes1: seq<Scene>) {
    && |scenes1| == |scenes|
    && forall i :: 0 <= i < |scenes| ==>
         scenes1[i].id == scenes[i].id && scenes1[i].name == scenes[i].name && scenes1[i].description == scenes[i].description
  }

  /** What apply_document checks before it writes. */
  predicate MayApply(rules: Rules, b: Bundle, doc: Document) {
    && (doc.AgentsDoc? ==> SameDefinitions(b.agents, doc.agents))
    && (doc.ScenesDoc? ==> SameScenes(b.scenes, doc.scenes))
    && Valid(rules, With(b, doc))
  }

  predicate BoundTo(agents: map<string, Binding>, providerId: string) {
    exists a :: a in agents && agents[a].providerId == providerId
  }

  function Without(models: seq<Provider>, id: string): seq<Provider> {
    if models == [] then []
    else if models[0].id == id then Without(models[1..], id)
    else [models[0]] + Without(models[1..], id)
  }

  function LastByName(models: seq<Model>, name: string): Option<Model> {
    if models == [] then None
    else if models[|models| - 1].name == name then Some(models[|models| - 1])
    else LastByName(models[..|models| - 1], name)
  }

  function LastById(models: seq<Model>, id: string): Option<Model> {
    if models == [] then None
    else if models[|models| - 1].id == id then Some(models[|models| - 1])
    else LastById(models[..|models| - 1], id)
  }

  /** A discovered name keeps the identifier of the model that had this name, or of the one with this identifier. */
  function Adopt(models: seq<Model>, remote: string): Model {
    var byName := LastByName(models, remote);
    var byId := LastById(models, remote);
    Model(if byName.Some? then byName.value.id else if byId.Some? then byId.value.id else remote, remote)
  }

  function AdoptAll(models: seq<Model>, remotes: seq<string>): (r: seq<Model>)
    ensures |r| == |remotes|
  {
    seq(|remotes|, i requires 0 <= i < |remotes| => Adopt(models, remotes[i]))
  }

  function SetModels(models: seq<Provider>, id: string, found: seq<Model>): seq<Provider> {
    if models == [] then []
    else if models[0].id == id then [models[0].(models := found)] + models[1..]
    else [models[0]] + SetModels(models[1..], id, found)
  }

  predicate Lost(binding: Binding, providerId: string, found: seq<Model>) {
    binding.providerId == providerId && forall i :: 0 <= i < |found| ==> found[i].id != binding.modelId
  }

  /** Agents whose model has gone are bound to the first model found. */
  function Rebound(agents: map<string, Binding>, providerId: string, found: seq<Model>): map<string, Binding>
    requires found != []
  {
    map a | a in agents :: if Lost(agents[a], providerId, found) then agents[a].(modelId := found[0].id) else agents[a]
  }

  datatype Edit =
    | ApplyDocument(doc: Document)
    | DeleteProvider(id: string)
    | Discover(id: string, baseUrl: string, selectedKey: string, remotes: seq<string>)

  function Discovered(b: Bundle, id: string, remotes: seq<string>): Option<Bundle> {
    var provider := FindProvider(b.models, id);
    if provider.None? then None
    else
      var found := AdoptAll(provider.value.models, remotes);
      if found == [] then
        // the first model is asked for only when an agent needs it
        (if BoundTo(b.agents, id) then None else Some(b.(models := SetModels(b.models, id, found))))
      else Some(b.(models := SetModels(b.models, id, found), agents := Rebound(b.agents, id, found)))
  }

  /** The configuration after an edit; None when the source raises and nothing changes. */
  function Edited(rules: Rules, b: Bundle, edit: Edit): Option<Bundle> {
    match edit
    case ApplyDocument(doc) => if MayApply(rules, b, doc) then Some(With(b, doc)) else None
    case DeleteProvider(id) =>
      var provider := FindProvider(b.models, id);
      if provider.None? || provider.value.builtIn || BoundTo(b.agents, id) then None
      else
        var doc := ModelsDoc(Without(b.models, id));
        if MayApply(rules, b, doc) then Some(With(b, doc)) else None
    case Discover(id, baseUrl, selectedKey, remotes) =>
      var provider := FindProvider(b.models, id);
      if provider.None? || provider.value.baseUrl != baseUrl || provider.value.selectedKey != selectedKey then None
      else
        var b1 := Discovered(b, id, remotes);
        if b1.Some? && Valid(rules, b1.value) then b1 else None
  }

  function Step(rules: Rules, b: Bundle, edit: Edit): Bundle {
    var r := Edited(rules, b, edit);
    if r.Some? then r.value else b
  }

  function Run(rules: Rules, b: Bundle, edits: seq<Edit>): Bundle
    decreases |edits|
  {
    if edits == [] then b else Run(rules, Step(rules, b, edits[0]), edits[1..])
  }

  /* ---- the promises ---- */

  lemma StepKeepsValid(rules: Rules, b: Bundle, edit: Edit)
    requires Valid(rules, b)
    ensures Valid(rules, Step(rules, b, edit))
  {
    match edit
    case ApplyDocument(doc) => assert MayApply(rules, b, doc) || Step(rules, b, edit) == b;
    case DeleteProvider(id) => assert MayApply(rules, b, ModelsDoc(Without(b.models, id))) || Step(rules, b, edit) == b;
    case Discover(_, _, _, _) =>
  }

  lemma StepKeepsDefinitions(rules: Rules, b: Bundle, edit: Edit)
    ensures SameDefinitions(b.agents, Step(rules, b, edit).agents)
  {
    match edit
    case ApplyDocument(doc) =>
      assert With(b, doc).agents == b.agents || doc.AgentsDoc?;
    case DeleteProvider(id) => assert Step(rules, b, edit).agents == b.agents;
    case Discover(id, _, _, remotes) =>
      var b1 := Discovered(b, id, remotes);
      assert Step(rules, b, edit) == b || (b1.Some? && Step(rules, b, edit) == b1.value);
      if b1.Some? && AdoptAll(FindProvider(b.models, id).value.models, remotes) != [] {
        assert b1.value.agents == Rebound(b.agents, id, AdoptAll(FindProvider(b.models, id).value.models, remotes));
      }
  }

  /** After any mix of document edits, provider deletions and discoveries the configuration is valid, and the agents are
      the initial ones with their initial names, roles and runtimes. */
  lemma {:induction false} EditsKeepValid(rules: Rules, b: Bundle, edits: seq<Edit>)
    requires Valid(rules, b)
    ensures Valid(rules, Run(rules, b, edits)) && SameDefinitions(b.agents, Run(rules, b, edits).agents)
    decreases |edits|
  {
    if edits != [] {
      StepKeepsValid(rules, b, edits[0]);
      StepKeepsDefinitions(rules, b, edits[0]);
      EditsKeepValid(rules, Step(rules, b, edits[0]), edits[1..]);
    }
  }

  lemma {:induction false} FindWithout(models: seq<Provider>, id: string, other: string)
    requires other != id
    ensures FindProvider(Without(models, id), other) == FindProvider(models, other)
  {
    if models != [] {
      FindWithout(models[1..], id, other);
    }
  }

  lemma {:induction false} FindAfterSet(models: seq<Provider>, id: string, found: seq<Model>, other: string)
    requires FindProvider(models, id).Some?
    ensures FindProvider(SetModels(models, id, found), other) ==
            if other == id then Some(FindProvider(models, id).value.(models := found)) else FindProvider(models, other)
  {
    if models[0].id != id {
      FindAfterSet(models[1..], id, found, other);
    }
  }

  /** A provider is deleted exactly when it exists, is not built in and no agent is bound to it: what remains is always
      valid, so the validation after the guards never refuses. */
  lemma DeletionSucceedsIff(rules: Rules, b: Bundle, id: string)
    requires Valid(rules, b)
    ensures var provider := FindProvider(b.models, id);
      Edited(rules, b, DeleteProvider(id)).Some? <==>
        provider.Some? && !provider.value.builtIn && !BoundTo(b.agents, id)
  {
    if !BoundTo(b.agents, id) {
      forall a | a in b.agents ensures BindingOk(Without(b.models, id), b.agents[a]) {
        assert BindingOk(b.models, b.agents[a]);
        FindWithout(b.models, id, b.agents[a].providerId);
      }
    }
  }

  lemma ReboundOk(rules: Rules, b: Bundle, id: string, found: seq<Model>, a: string)
    requires Valid(rules, b) && found != [] && FindProvider(b.models, id).Some? && a in b.agents
    ensures BindingOk(SetModels(b.models, id, found), Rebound(b.agents, id, found)[a])
  {
    assert BindingOk(b.models, b.agents[a]);
    FindAfterSet(b.models, id, found, b.agents[a].providerId);
    var bound := Rebound(b.agents, id, found)[a];
    if bound.providerId == id {
      assert exists i :: 0 <= i < |found| && found[i].id == bound.modelId by {
        if Lost(b.agents[a], id, found) {
          assert found[0].id == bound.modelId;
        }
      }
    }
  }

  /** Everything but the bindings depends on the fixed definitions only. */
  lemma DefinitionsCarry(rules: Rules, agents: map<string, Binding>, agents1: map<string, Binding>, runtime: Runtimes)
    requires AgentsComplete(rules, agents) && ImagesComplete(agents, runtime) && SameDefinitions(agents, agents1)
    ensures AgentsComplete(rules, agents1) && ImagesComplete(agents1, runtime)
  {
  }

  lemma FoundBindingsOk(rules: Rules, b: Bundle, id: string, found: seq<Model>)
    requires Valid(rules, b) && found != [] && FindProvider(b.models, id).Some?
    ensures BindingsOk(SetModels(b.models, id, found), Rebound(b.agents, id, found))
  {
    forall a | a in b.agents ensures BindingOk(SetModels(b.models, id, found), Rebound(b.agents, id, found)[a]) {
      ReboundOk(rules, b, id, found, a);
    }
  }

  lemma UnboundBindingsOk(rules: Rules, b: Bundle, id: string)
    requires Valid(rules, b) && FindProvider(b.models, id).Some? && !BoundTo(b.agents, id)
    ensures BindingsOk(SetModels(b.models, id, []), b.agents)
  {
    forall a | a in b.agents ensures BindingOk(SetModels(b.models, id, []), b.agents[a]) {
      assert BindingOk(b.models, b.agents[a]);
      FindAfterSet(b.models, id, [], b.agents[a].providerId);
    }
  }

  lemma DiscoveredIsValid(rules: Rules, b: Bundle, id: string, remotes: seq<string>)
    requires Valid(rules, b) && Discovered(b, id, remotes).Some?
    ensures Valid(rules, Discovered(b, id, remotes).value)
  {
    var found := AdoptAll(FindProvider(b.models, id).value.models, remotes);
    if found != [] {
      FoundBindingsOk(rules, b, id, found);
      DefinitionsCarry(rules, b.agents, Rebound(b.agents, id, found), b.runtime);
    } else {
      UnboundBindingsOk(rules, b, id);
    }
  }

  /** Discovery never fails the validation: for a valid configuration whose provider still has the URL and key of the
      snapshot, it fails exactly when nothing was discovered and an agent is bound to the provider. */
  lemma DiscoverySucceedsIff(rules: Rules, b: Bundle, id: string, baseUrl: string, selectedKey: string, remotes: seq<string>)
    requires Valid(rules, b) && FindProvider(b.models, id).Some?
    requires FindProvider(b.models, id).value.baseUrl == baseUrl && FindProvider(b.models, id).value.selectedKey == selectedKey
    ensures Edited(rules, b, Discover(id, baseUrl, selectedKey, remotes)).Some? <==> remotes != [] || !BoundTo(b.agents, id)
  {
    if Discovered(b, id, remotes).Some? {
      DiscoveredIsValid(rules, b, id, remotes);
    }
  }

  /** The rebinding loop of discover_models, agent by agent. */
  method RebindAgents(agents: map<string, Binding>, providerId: string, found: seq<Model>)
    returns (updated: map<string, Binding>, rebound: set<string>)
    requires found != []
    ensures updated == Rebound(agents, providerId, found)
    ensures rebound == set a | a in agents && updated[a] != agents[a]
  {
    updated, rebound := agents, {};
    var left := agents.Keys;
    while left != {}
      invariant left <= agents.Keys && updated.Keys == agents.Keys
      invariant forall a :: a in left ==> updated[a] == agents[a]
      invariant forall a :: a in agents && a !in left ==> updated[a] == Rebound(agents, providerId, found)[a]
      invariant rebound == set a | a in agents && updated[a] != agents[a]
      decreases left
    {
      var a :| a in left;
      if Lost(updated[a], providerId, found) {
        assert updated[a].modelId != found[0].id;
        updated := updated[a := updated[a].(modelId := found[0].id)];
        rebound := rebound + {a};
      }
      left := left - {a};
    }
  }
}

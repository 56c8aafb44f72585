/** The earlier server, mcp-server/digital-muse-protocol-server.js: the same
    tool switch with `||` defaults and throwing on unknown names, a scaffold
    with an inline roadmap, built-in templates, a two-entry configuration
    table, and stubs for validation and resources. */
module LegacyServer {
  import opened Wrappers
  import opened Strings
  import opened Files
  import opened Documents
  import opened Tables
  import opened Project
  import opened ToolServer

  // ---- Arguments ----

  /** `value || fallback` for a string property: an `undefined` or empty
      argument gives the fallback. */
  function JsOr(a: Option<string>, fallback: string): (r: string)
    ensures a.Some? && a.value != "" ==> r == a.value
    ensures a.None? || a.value == "" ==> r == fallback
  {
    if a.Some? && a.value != "" then a.value else fallback
  }

  // ---- Setup ----

  /** The roadmap written inline by `setupProjectStructure`. */
  const LegacyRoadmap :=
    "# [Project Name] - Digital Muse Protocol\n" +
    "\n" +
    "## Project Parameters\n" +
    "- **Genre**: [Your genre]\n" +
    "- **Target Length**: [Word count]\n" +
    "- **Target Audience**: [Reader demographic]\n" +
    "- **Completion Timeline**: [Your deadline]\n" +
    "\n" +
    "## Knowledge Graph Architecture\n" +
    "- [X] Federated System (Complex) / [ ] Single Graph (Simple)\n" +
    "- **Storage Location**: ./book/memory/\n" +
    "\n" +
    "## Phase Status\n" +
    "- [ ] Phase 0: Pre-Project Planning\n" +
    "- [ ] Phase 1: Project Initialization  \n" +
    "- [ ] Phase 2: World & Character Building\n" +
    "- [ ] Phase 3: Chapter Generation\n" +
    "- [ ] Phase 4: Quality Assurance\n" +
    "\n" +
    "## Success Criteria\n" +
    "- Target word count: [Number]\n" +
    "- Character consistency: 95%+\n" +
    "- Zero world-building contradictions\n" +
    "- Publication-ready prose quality\n"

  const LegacySetupReport :=
    "✅ Digital Muse Protocol project structure created successfully!\n\n" +
    "Directories created:\n" +
    "- book/memory/ (for knowledge graphs)\n" +
    "- book/characters/ (for character files)\n" +
    "- book/world/ (for world-building files)\n" +
    "- book/plots/ (for plot outlines)\n" +
    "- book/chapters/ (for generated chapters)\n\n" +
    "Files created:\n" +
    "- ROADMAP.md (project master plan template)\n\n" +
    "Next steps:\n" +
    "1. Configure MCP memory servers using 'get_mcp_config'\n" +
    "2. Use templates to create your first story elements\n" +
    "3. Begin with Phase 0: Pre-Project Planning"

  /** The texts of `setupProjectStructure` in the earlier server. */
  const LegacySetupTexts := SetupTexts(LegacyRoadmap, LegacySetupReport)

  const SetupErrorPrefix := "Error creating project structure: "

  /** The envelope the catch block of setup builds around a thrown message. */
  function SetupError(message: string): (r: Envelope)
    ensures r.isError && Marked(r.payload)
    ensures r.payload.text[|FailureMark|..] == SetupErrorPrefix + message
  {
    var text := FailureMark + SetupErrorPrefix + message;
    assert text[|FailureMark|..] == SetupErrorPrefix + message;
    Envelope(Text(text), true)
  }

  /** What `setupProjectStructure(projectPath)` returns and the file system
      it leaves. It creates the same five directories as the current server,
      with the raw mkdir message on failure, then writes the inline roadmap;
      `texts` are the handler's own texts, `LegacySetupTexts`. */
  function LegacySetupSpec(ns: seq<Node>, failing: map<string, string>, texts: SetupTexts, projectPath: string): Outcome
  {
    var run := MkdirEach(ns, failing, projectPath, BookDirs);
    match run.failure
    case Some(f) => Outcome(run.nodes, SetupError(f.message))
    case None =>
      match WriteFile(run.nodes, failing, RoadmapPath(projectPath), texts.roadmap)
      case Failure(m) => Outcome(run.nodes, SetupError(m))
      case Success(ns') => Outcome(ns', Envelope(Text(texts.report), false))
  }

  /** `setupProjectStructure(projectPath)`, with the handler's own texts. */
  method LegacySetupProjectStructure(fs: FileSystem, texts: SetupTexts, projectPath: string) returns (r: Envelope)
    requires fs.Valid()
    modifies fs
    ensures fs.Valid()
    ensures Outcome(fs.nodes, r) == LegacySetupSpec(old(fs.nodes), fs.failing, texts, projectPath)
  {
    var directories := BookDirs;
    var i := 0;
    while i < |directories|
      invariant 0 <= i <= |directories|
      invariant fs.Valid()
      invariant var rest := MkdirEach(fs.nodes, fs.failing, projectPath, directories[i..]);
                MkdirEach(old(fs.nodes), fs.failing, projectPath, directories) == MkdirRun(rest.nodes, rest.done + i, rest.failure)
    {
      var fullPath := Join(projectPath, directories[i]);
      var err := fs.MakeDirectory(fullPath);
      if err.Some? {
        r := SetupError(err.value);
        return;
      }
      assert directories[i..][1..] == directories[i + 1..];
      i := i + 1;
    }
    var err := fs.WriteTextFile(Join(projectPath, RoadmapFile), texts.roadmap);
    if err.Some? {
      r := SetupError(err.value);
    } else {
      r := Envelope(Text(texts.report), false);
    }
  }

  /** Setup succeeds exactly when nothing stands in its way, the same
      condition as for the current server. */
  lemma LegacySetupSucceedsIff(ns: seq<Node>, failing: map<string, string>, texts: SetupTexts, projectPath: string)
    ensures !LegacySetupSpec(ns, failing, texts, projectPath).response.isError <==> Unobstructed(ns, failing, projectPath)
  {
    var run := MkdirEach(ns, failing, projectPath, BookDirs);
    var rp := RoadmapPath(projectPath);
    MkdirEachKeeps(ns, failing, projectPath, BookDirs);
    MkdirEachNoRetype(ns, failing, projectPath, BookDirs);
    MkdirEachOnly(ns, failing, projectPath, BookDirs);
    SetupPathsDistinct(projectPath);
    UnderFileSameFiles(ns, run.nodes, rp);
    if Unobstructed(ns, failing, projectPath) {
      MkdirEachUnobstructed(ns, failing, projectPath, BookDirs);
      if HasPath(run.nodes, rp) {
        assert HasPath(ns, rp);
      }
      assert !IsDir(run.nodes, rp);
    }
    if run.failure.None? {
      forall k | 0 <= k < |BookDirs| && HasPath(ns, Join(projectPath, BookDirs[k]))
        ensures IsDir(ns, Join(projectPath, BookDirs[k]))
      {
        assert IsDir(run.nodes, Join(projectPath, BookDirs[k]));
      }
    }
  }

  /** After a successful setup the five directories exist, the roadmap holds
      the inline text, and nothing that was there is gone. */
  lemma LegacySetupLayout(ns: seq<Node>, failing: map<string, string>, texts: SetupTexts, projectPath: string)
    requires !LegacySetupSpec(ns, failing, texts, projectPath).response.isError
    ensures var o := LegacySetupSpec(ns, failing, texts, projectPath);
            && o.response == Envelope(Text(texts.report), false)
            && (forall k :: 0 <= k < |BookDirs| ==> IsDir(o.nodes, Join(projectPath, BookDirs[k])))
            && FileText(o.nodes, RoadmapPath(projectPath)) == Some(texts.roadmap)
            && (forall q :: HasPath(ns, q) ==> HasPath(o.nodes, q))
            && (forall q :: q != RoadmapPath(projectPath) ==> FileText(o.nodes, q) == FileText(ns, q))
  {
    var run := MkdirEach(ns, failing, projectPath, BookDirs);
    MkdirEachKeeps(ns, failing, projectPath, BookDirs);
    WriteFileProperties(run.nodes, failing, RoadmapPath(projectPath), texts.roadmap);
  }

  /** Setup stopped after creating the first `d` directories, at the next
      one or, when all were created, at the roadmap, reporting the raw
      message of the operation that failed. */
  predicate LegacyStoppedAt(o: Outcome, failing: map<string, string>, projectPath: string, d: nat) {
    && d <= |BookDirs|
    && (forall k :: 0 <= k < d ==> IsDir(o.nodes, Join(projectPath, BookDirs[k])))
    && (d < |BookDirs| ==>
          var p := Join(projectPath, BookDirs[d]);
          o.response == SetupError(if p in failing then failing[p]
                                   else if UnderFile(o.nodes, p) then NotDirectoryMessage
                                   else FileExistsMessage))
    && (d == |BookDirs| ==>
          var p := RoadmapPath(projectPath);
          o.response == SetupError(if p in failing then failing[p]
                                   else if UnderFile(o.nodes, p) then NotDirectoryMessage
                                   else IsDirectoryMessage))
  }

  /** A failed setup writes no file, removes nothing, and stopped at a
      directory or at the roadmap. */
  lemma LegacySetupFailure(ns: seq<Node>, failing: map<string, string>, texts: SetupTexts, projectPath: string)
    requires LegacySetupSpec(ns, failing, texts, projectPath).response.isError
    ensures var o := LegacySetupSpec(ns, failing, texts, projectPath);
            && Marked(o.response.payload)
            && (forall q :: FileText(o.nodes, q) == FileText(ns, q))
            && (forall q :: HasPath(ns, q) ==> HasPath(o.nodes, q))
            && exists d: nat :: LegacyStoppedAt(o, failing, projectPath, d)
  {
    var o := LegacySetupSpec(ns, failing, texts, projectPath);
    var run := MkdirEach(ns, failing, projectPath, BookDirs);
    MkdirEachKeeps(ns, failing, projectPath, BookDirs);
    MkdirEachFailure(ns, failing, projectPath, BookDirs);
    if run.failure.Some? {
      assert o == Outcome(run.nodes, SetupError(run.failure.value.message));
    } else {
      var w := WriteFile(run.nodes, failing, RoadmapPath(projectPath), texts.roadmap);
      assert o == Outcome(run.nodes, SetupError(w.error));
    }
    assert LegacyStoppedAt(o, failing, projectPath, run.done);
  }

  /** Running setup again after it succeeded changes nothing and answers
      the same. */
  lemma LegacySetupIdempotent(ns: seq<Node>, failing: map<string, string>, texts: SetupTexts, projectPath: string)
    requires !LegacySetupSpec(ns, failing, texts, projectPath).response.isError
    ensures var o := LegacySetupSpec(ns, failing, texts, projectPath);
            LegacySetupSpec(o.nodes, failing, texts, projectPath) == o
  {
    var o := LegacySetupSpec(ns, failing, texts, projectPath);
    var run := MkdirEach(ns, failing, projectPath, BookDirs);
    var rp := RoadmapPath(projectPath);
    MkdirEachKeeps(ns, failing, projectPath, BookDirs);
    WriteFileProperties(run.nodes, failing, rp, texts.roadmap);
    SetupNotUnderFile(ns, failing, projectPath, texts.roadmap);
    MkdirEachPresent(o.nodes, failing, projectPath, BookDirs);
    OverwriteSame(o.nodes, rp, texts.roadmap);
  }

  // ---- Templates ----

  /** The three template literals of `getCharacterTemplate`,
      `getWorldTemplate` and `getPlotTemplate`, as opaque texts. */
  datatype TemplateBodies = TemplateBodies(character: string, world: string, plot: string)

  /** The format switch of each template handler. */
  function TemplateReply(template: string, format: string): (r: Envelope)
    ensures !r.isError
    ensures format == "json" <==> r.payload == Wrapped(template)
    ensures format != "json" <==> r.payload == Text(template)
  {
    Envelope(if format == "json" then Wrapped(template) else Text(template), false)
  }

  // ---- Configuration table ----

  /** The five operations every endpoint of the table pre-approves. */
  const LegacyAutoApprove := ["create_entities", "create_relations", "add_observations", "search_nodes", "read_graph"]

  const LegacyMemoryDir := "./book/memory/"

  function LegacyEndpoint(name: string, file: string): Endpoint {
    Endpoint(name, MemoryServerCommand, MemoryServerArgs, LegacyMemoryDir + file, LegacyAutoApprove)
  }

  const LegacySimpleConfig := ConfigDoc([LegacyEndpoint("story_memory", "story_memory.json")])

  /** The federated graph files, in key order. */
  const LegacyGraphFiles := ["master_story_graph.json", "character_graph.json", "world_graph.json", "plot_graph.json", "narrative_graph.json"]

  const LegacyFederatedConfig := ConfigDoc([
    LegacyEndpoint("master_story", "master_story_graph.json"),
    LegacyEndpoint("character_memory", "character_graph.json"),
    LegacyEndpoint("world_memory", "world_graph.json"),
    LegacyEndpoint("plot_memory", "plot_graph.json"),
    LegacyEndpoint("narrative_memory", "narrative_graph.json")])

  /** `JSON.stringify(configs[type])`: a configuration for the two keys of
      the table, `undefined` for any other type. */
  function LegacyConfig(kind: string): (p: Payload)
    ensures p != Undefined <==> kind == "simple" || kind == "federated"
  {
    if kind == "simple" then Config(LegacySimpleConfig)
    else if kind == "federated" then Config(LegacyFederatedConfig)
    else Undefined
  }

  /** The simple entry: one endpoint, `story_memory`, with its fixed path. */
  lemma LegacySimpleLayout()
    ensures Names(LegacySimpleConfig) == ["story_memory"]
    ensures LegacySimpleConfig.servers[0].memoryFilePath == "./book/memory/story_memory.json"
    ensures SharedOperations(LegacySimpleConfig, LegacyAutoApprove) && |LegacyAutoApprove| == 5
  {
  }

  /** The federated entry: five endpoints in key order, each storing its
      graph in its own `./book/memory/<stem>_graph.json` file, with the same
      operations. */
  lemma LegacyFederatedLayout()
    ensures Names(LegacyFederatedConfig) == ["master_story", "character_memory", "world_memory", "plot_memory", "narrative_memory"]
    ensures forall k :: 0 <= k < 5 ==>
              LegacyFederatedConfig.servers[k].memoryFilePath == LegacyMemoryDir + LegacyGraphFiles[k]
    ensures forall k :: 0 <= k < 5 ==> EndsWith(LegacyGraphFiles[k], "_graph.json")
    ensures StorageDistinct(LegacyFederatedConfig)
    ensures SharedOperations(LegacyFederatedConfig, LegacyAutoApprove)
  {
    forall k | 0 <= k < 5
      ensures EndsWith(LegacyGraphFiles[k], "_graph.json")
    {
      GraphSuffix(LegacyGraphFiles[k], k);
    }
    var s := LegacyFederatedConfig.servers;
    forall i, j | 0 <= i < j < |s|
      ensures s[i].memoryFilePath != s[j].memoryFilePath
    {
      assert LegacyGraphFiles[i][0] != LegacyGraphFiles[j][0];
      PrefixedDistinct(LegacyMemoryDir, LegacyGraphFiles[i], LegacyGraphFiles[j]);
    }
  }

  lemma GraphSuffix(file: string, k: nat)
    requires k < 5 && file == LegacyGraphFiles[k]
    ensures EndsWith(file, "_graph.json")
  {
    var stem := ["master_story", "character", "world", "plot", "narrative"][k];
    assert file == stem + "_graph.json";
    assert (stem + "_graph.json")[|stem|..] == "_graph.json";
  }

  // ---- Stubs ----

  const ValidationStub :=
    "Project consistency validation would be implemented here - checking cross-references, character consistency, world rules, etc."

  const ResourcePrefix := "Resource content for "
  const ResourceSuffix := " would be fetched from the Digital Muse Protocol repository"

  /** The text of `getResource(resourceType)`. */
  function ResourceStub(resourceType: string): string {
    ResourcePrefix + resourceType + ResourceSuffix
  }

  /** The resource type a stub text embeds. */
  function EmbeddedType(text: string): string
    requires |ResourcePrefix| + |ResourceSuffix| <= |text|
  {
    text[|ResourcePrefix|..|text| - |ResourceSuffix|]
  }

  /** The stub embeds its resource type, which can be read back. */
  lemma ResourceStubEmbedsType(resourceType: string)
    ensures |ResourcePrefix| + |ResourceSuffix| <= |ResourceStub(resourceType)|
    ensures EmbeddedType(ResourceStub(resourceType)) == resourceType
  {
    var t := ResourceStub(resourceType);
    assert t[|ResourcePrefix|..|t| - |ResourceSuffix|] == resourceType;
  }

  // ---- The tool switch ----

  /** The tools, as `ListTools` lists them. */
  const LegacyToolNames := [
    "setup_project_structure", "get_character_template", "get_world_template",
    "get_plot_template", "validate_project_consistency", "get_mcp_config"]

  function LegacyDispatch(name: string): Option<Tool>
  {
    if name == "setup_project_structure" then Some(SetupTool)
    else if name == "get_character_template" then Some(TemplateTool("character"))
    else if name == "get_world_template" then Some(TemplateTool("world"))
    else if name == "get_plot_template" then Some(TemplateTool("plot"))
    else if name == "validate_project_consistency" then Some(ValidateTool)
    else if name == "get_mcp_config" then Some(McpConfigTool)
    else None
  }

  /** Every listed tool has a case, every case is listed, and there is no
      phase-guide tool. */
  lemma LegacyDispatchCoversListing(name: string)
    ensures LegacyDispatch(name).Some? <==> name in LegacyToolNames
    ensures LegacyDispatch(name) != Some(PhaseGuideTool)
  {
  }

  function TemplateBody(bodies: TemplateBodies, kind: string): string {
    if kind == "character" then bodies.character
    else if kind == "world" then bodies.world
    else bodies.plot
  }

  /** What a tool call returns and the file system it leaves; an unknown
      tool is a thrown error. */
  function LegacyCall(ns: seq<Node>, failing: map<string, string>, texts: SetupTexts, bodies: TemplateBodies, name: string, args: Args): Result<Outcome, string>
  {
    match LegacyDispatch(name)
    case None => Failure("Unknown tool: " + name)
    case Some(SetupTool) => Success(LegacySetupSpec(ns, failing, texts, JsOr(Arg(args, "project_path"), ".")))
    case Some(TemplateTool(kind)) =>
      Success(Outcome(ns, TemplateReply(TemplateBody(bodies, kind), JsOr(Arg(args, "format"), "markdown"))))
    case Some(ValidateTool) => Success(Outcome(ns, Envelope(Text(ValidationStub), false)))
    case Some(McpConfigTool) => Success(Outcome(ns, Envelope(LegacyConfig(JsOr(Arg(args, "type"), "federated")), false)))
    case Some(PhaseGuideTool) => Failure("Unknown tool: " + name)
  }

  /** The `CallTool` request handler; `Failure` is the thrown error. */
  method LegacyCallTool(fs: FileSystem, bodies: TemplateBodies, name: string, args: Args) returns (r: Result<Envelope, string>)
    requires fs.Valid()
    modifies fs
    ensures fs.Valid()
    ensures match LegacyCall(old(fs.nodes), fs.failing, LegacySetupTexts, bodies, name, args)
            case Success(o) => r == Success(o.response) && fs.nodes == o.nodes
            case Failure(m) => r == Failure(m) && fs.nodes == old(fs.nodes)
  {
    match LegacyDispatch(name)
    case None =>
      r := Failure("Unknown tool: " + name);
    case Some(SetupTool) =>
      var e := LegacySetupProjectStructure(fs, LegacySetupTexts, JsOr(Arg(args, "project_path"), "."));
      r := Success(e);
    case Some(TemplateTool(kind)) =>
      r := Success(TemplateReply(TemplateBody(bodies, kind), JsOr(Arg(args, "format"), "markdown")));
    case Some(ValidateTool) =>
      r := Success(Envelope(Text(ValidationStub), false));
    case Some(McpConfigTool) =>
      r := Success(Envelope(LegacyConfig(JsOr(Arg(args, "type"), "federated")), false));
    case Some(PhaseGuideTool) =>
      r := Failure("Unknown tool: " + name);
  }

  /** An unknown tool throws, naming the tool; a known one never throws. */
  lemma LegacyUnknownTool(ns: seq<Node>, failing: map<string, string>, texts: SetupTexts, bodies: TemplateBodies, name: string, args: Args)
    ensures LegacyCall(ns, failing, texts, bodies, name, args).Failure? <==> name !in LegacyToolNames
    ensures name !in LegacyToolNames ==> LegacyCall(ns, failing, texts, bodies, name, args) == Failure("Unknown tool: " + name)
  {
    LegacyDispatchCoversListing(name);
  }

  /** Only setup changes the file system; validation answers the same fixed
      text whatever the project. */
  lemma LegacyCallKeepsFiles(ns: seq<Node>, failing: map<string, string>, texts: SetupTexts, bodies: TemplateBodies, name: string, args: Args)
    requires name in LegacyToolNames && name != "setup_project_structure"
    ensures LegacyCall(ns, failing, texts, bodies, name, args).Success?
    ensures LegacyCall(ns, failing, texts, bodies, name, args).value.nodes == ns
  {
    LegacyDispatchCoversListing(name);
    assert LegacyDispatch(name) != Some(SetupTool);
  }

  /** The validation stub ignores its project path. */
  lemma LegacyValidateStub(ns: seq<Node>, failing: map<string, string>, texts: SetupTexts, bodies: TemplateBodies, args: Args)
    ensures LegacyCall(ns, failing, texts, bodies, "validate_project_consistency", args) ==
            Success(Outcome(ns, Envelope(Text(ValidationStub), false)))
  {
    assert LegacyDispatch("validate_project_consistency") == Some(ValidateTool);
  }

  /** The configuration depends on the type only: the project path is
      ignored, and a missing or empty type is the federated entry. */
  lemma LegacyMcpConfigIgnoresPath(ns: seq<Node>, failing: map<string, string>, texts: SetupTexts, bodies: TemplateBodies, args: Args, p: string)
    ensures LegacyCall(ns, failing, texts, bodies, "get_mcp_config", args) ==
            LegacyCall(ns, failing, texts, bodies, "get_mcp_config", args["project_path" := p])
    ensures LegacyCall(ns, failing, texts, bodies, "get_mcp_config", map["type" := ""]) ==
            Success(Outcome(ns, Envelope(Config(LegacyFederatedConfig), false)))
  {
    assert LegacyDispatch("get_mcp_config") == Some(McpConfigTool);
    assert Arg(args, "type") == Arg(args["project_path" := p], "type");
  }

  /** A template tool returns its own template, wrapped exactly for the
      "json" format; a missing or empty format is markdown. */
  lemma LegacyTemplateFormat(ns: seq<Node>, failing: map<string, string>, texts: SetupTexts, bodies: TemplateBodies, format: string)
    ensures var r := LegacyCall(ns, failing, texts, bodies, "get_character_template", map["format" := format]);
            && r.Success? && r.value.nodes == ns
            && (format == "json" ==> r.value.response.payload == Wrapped(bodies.character))
            && (format != "json" ==> r.value.response.payload == Text(bodies.character))
    ensures LegacyCall(ns, failing, texts, bodies, "get_character_template", map[]) ==
            LegacyCall(ns, failing, texts, bodies, "get_character_template", map["format" := "markdown"])
  {
    assert LegacyDispatch("get_character_template") == Some(TemplateTool("character"));
  }

  // ---- Resources ----

  /** The URIs of `ListResources` with the resource type each is fetched as. */
  const LegacyResources: Table := [
    ("dm://methodology/core", "core_methodology"),
    ("dm://methodology/setup", "project_setup"),
    ("dm://templates/character", "character_template"),
    ("dm://templates/world", "world_template"),
    ("dm://templates/plot", "plot_template"),
    ("dm://config/mcp-simple", "mcp_simple_config"),
    ("dm://config/mcp-federated", "mcp_federated_config")]

  /** The resources `ListResources` announces. */
  const LegacyListedResources := [
    "dm://methodology/core", "dm://methodology/setup", "dm://templates/character",
    "dm://templates/world", "dm://templates/plot", "dm://config/mcp-simple", "dm://config/mcp-federated"]

  /** The `ReadResource` request handler; `Failure` is the thrown error. */
  function LegacyReadResource(uri: string): Result<ResourceReply, string>
  {
    match Lookup(LegacyResources, uri)
    case None => Failure("Unknown resource: " + uri)
    case Some(resourceType) => Success(ResourceReply(ResourceStub(resourceType), false))
  }

  /** Exactly the listed resources are served, each as the stub for its
      type; any other URI throws, naming it. */
  lemma LegacyResourceOutcomes(uri: string)
    ensures LegacyReadResource(uri).Success? <==> uri in LegacyListedResources
    ensures uri !in LegacyListedResources ==> LegacyReadResource(uri) == Failure("Unknown resource: " + uri)
    ensures forall k :: 0 <= k < |LegacyResources| && uri == LegacyResources[k].0 ==>
              LegacyReadResource(uri) == Success(ResourceReply(ResourceStub(LegacyResources[k].1), false))
  {
    assert Keys(LegacyResources) == LegacyListedResources;
    LookupFound(LegacyResources, uri);
    assert KeysDistinct(LegacyResources) by {
      forall i, j | 0 <= i < j < |LegacyResources|
        ensures LegacyResources[i].0 != LegacyResources[j].0
      {
        assert |LegacyResources[i].0| != |LegacyResources[j].0| || LegacyResources[i].0[15] != LegacyResources[j].0[15];
      }
    }
    forall k | 0 <= k < |LegacyResources| && uri == LegacyResources[k].0
      ensures Lookup(LegacyResources, uri) == Some(LegacyResources[k].1)
    {
      LookupEntry(LegacyResources, k);
    }
  }
}

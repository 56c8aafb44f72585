/** The request handlers of server.js: the tool switch with its default
    arguments, the template, configuration and phase-guide handlers of
    `ToolHandlers`, and the resource map. */
module ToolServer {
  import opened Wrappers
  import opened Strings
  import opened Files
  import opened Documents
  import opened FileUtils
  import opened Tables
  import opened Templates
  import opened MemoryConfig
  import opened Project

  // ---- Content repository keys (`FILE_PATHS`) ----

  const CoreMethodologyKey := "docs/DMProtocol_CoreMethodology.md"
  const ProjectSetupKey := "docs/DMProtocol_ProjectSetup.md"
  const KgIntegrationKey := "docs/DMProtocol_KnowledgeGraph_Integration.md"
  const KgSetupKey := "docs/KG_SETUP.md"
  const KgAdvancedKey := "docs/KG_ADVANCED.md"
  const TemplatesKey := "templates/DMProtocol_Templates.md"
  const ChecklistsKey := "tools/DMProtocol_Checklists.md"
  const QualityControlKey := "tools/QualityControl_Guide.md"
  const TroubleshootingKey := "tools/DMProtocol_Troubleshooting.md"
  const FederatedConfigKey := "technical/federated_mcp_config.json"

  // ---- Arguments ----

  /** The `arguments` object of a tool call with its string-valued
      properties; an absent object behaves as an empty one. */
  type Args = map<string, string>

  /** `args?.key`. */
  function Arg(args: Args, key: string): (r: Option<string>)
    ensures r.Some? <==> key in args
    ensures r.Some? ==> r.value == args[key]
  {
    if key in args then Some(args[key]) else None
  }

  /** A default parameter value: it replaces an `undefined` argument only. */
  function DefaultParam(a: Option<string>, default: string): (r: string)
    ensures a.Some? ==> r == a.value
    ensures a.None? ==> r == default
  {
    match a
    case Some(v) => v
    case None => default
  }

  /** An argument used as a property key: `undefined` becomes the key
      "undefined". */
  function PropertyKey(a: Option<string>): string {
    DefaultParam(a, "undefined")
  }

  // ---- The tool switch ----

  /** The tools, as `ListTools` lists them. */
  const ToolNames := [
    "setup_project_structure", "get_character_template", "get_world_template",
    "get_plot_template", "get_mcp_config", "get_phase_guide", "validate_project_consistency"]

  datatype Tool =
    | SetupTool
    | TemplateTool(kind: string)
    | McpConfigTool
    | PhaseGuideTool
    | ValidateTool

  /** The case of the tool switch that handles `name`. */
  function Dispatch(name: string): Option<Tool>
  {
    if name == "setup_project_structure" then Some(SetupTool)
    else if name == "get_character_template" then Some(TemplateTool("character"))
    else if name == "get_world_template" then Some(TemplateTool("world"))
    else if name == "get_plot_template" then Some(TemplateTool("plot"))
    else if name == "get_mcp_config" then Some(McpConfigTool)
    else if name == "get_phase_guide" then Some(PhaseGuideTool)
    else if name == "validate_project_consistency" then Some(ValidateTool)
    else None
  }

  /** Every listed tool has a case, and every case is listed. */
  lemma DispatchCoversListing(name: string)
    ensures Dispatch(name).Some? <==> name in ToolNames
  {
  }

  /** The three template tools ask for the three template types. */
  lemma TemplateToolKinds(name: string)
    requires Dispatch(name).Some? && Dispatch(name).value.TemplateTool?
    ensures Markers(Dispatch(name).value.kind).Some?
  {
  }

  /** The details of the unknown-tool error; the source spells out the
      same seven names, in listing order, as one literal. */
  const UnknownToolDetails := "Available tools: setup_project_structure, get_character_template, get_world_template, get_plot_template, get_mcp_config, get_phase_guide, validate_project_consistency"

  function UnknownToolResponse(name: string): Envelope {
    CreateErrorResponse("Unknown tool: " + name, UnknownToolDetails)
  }

  // ---- getTemplate ----

  /** `ToolHandlers.getTemplate(templateType, format)`. */
  function TemplateResponse(store: ContentStore, kind: string, format: Option<string>): Envelope
  {
    if Markers(kind).None? then
      CreateErrorResponse("Invalid template type: " + kind, "Available types: character, world, plot")
    else
      match SafeReadFile(store, TemplatesKey, None)
      case Failure(m) => CreateErrorResponse("Failed to get " + kind + " template", m)
      case Success(templates) =>
        var section := ExtractTemplateSection(templates.text, kind);
        if DefaultParam(format, "markdown") == "json" then
          CreateSuccessResponse(Template(TemplateDoc(kind, TemplateStructure(section), Instructions(kind))))
        else
          CreateSuccessResponse(Text(section))
  }

  /** A template is returned exactly when the type is one of the three and
      the templates document is readable: as the extracted section, or, for
      the JSON format, as the structure of that same section. */
  lemma TemplateOutcomes(store: ContentStore, kind: string, format: Option<string>)
    ensures var r := TemplateResponse(store, kind, format);
            && (!r.isError <==> Markers(kind).Some? && TemplatesKey in store.files)
            && (r.isError ==> Marked(r.payload))
            && (!r.isError && format != Some("json") ==>
                  r.payload == Text(ExtractTemplateSection(store.files[TemplatesKey], kind)))
            && (!r.isError && format == Some("json") ==>
                  r.payload == Template(TemplateDoc(kind, TemplateStructure(ExtractTemplateSection(store.files[TemplatesKey], kind)), Instructions(kind))))
  {
  }

  /** The JSON format carries the structure of exactly the text the
      markdown format returns, and both fail alike. */
  lemma TemplateFormatsAgree(store: ContentStore, kind: string)
    ensures var md, js := TemplateResponse(store, kind, None), TemplateResponse(store, kind, Some("json"));
            && md.isError == js.isError
            && (md.isError ==> md == js)
            && (!md.isError ==>
                  md.payload.Text? &&
                  js.payload == Template(TemplateDoc(kind, TemplateStructure(md.payload.text), Instructions(kind))))
  {
  }

  /** Unknown template types are refused whatever the format. */
  lemma InvalidTemplateType(store: ContentStore, kind: string, format: Option<string>)
    requires kind != "character" && kind != "world" && kind != "plot"
    ensures TemplateResponse(store, kind, format) ==
            CreateErrorResponse("Invalid template type: " + kind, "Available types: character, world, plot")
  {
    assert Markers(kind).None?;
  }

  /** `ToolHandlers.getTemplate`, with the structure built by the loop of
      `convertTemplateToJson`. */
  method GetTemplate(store: ContentStore, kind: string, format: Option<string>) returns (r: Envelope)
    ensures r == TemplateResponse(store, kind, format)
  {
    if Markers(kind).None? {
      return CreateErrorResponse("Invalid template type: " + kind, "Available types: character, world, plot");
    }
    var templates := SafeReadFile(store, TemplatesKey, None);
    if templates.Failure? {
      return CreateErrorResponse("Failed to get " + kind + " template", templates.error);
    }
    var section := ExtractTemplateSection(templates.value.text, kind);
    if DefaultParam(format, "markdown") == "json" {
      var doc := ConvertTemplateToJson(section, kind);
      r := CreateSuccessResponse(Template(doc));
    } else {
      r := CreateSuccessResponse(Text(section));
    }
  }

  // ---- getMcpConfig ----

  const McpConfigFailed := "Failed to generate MCP configuration"

  /** `ToolHandlers.getMcpConfig(type, projectPath)`. */
  function McpConfigResponse(store: ContentStore, kind: string, projectPath: string): Envelope
  {
    if kind == "simple" then
      CreateSuccessResponse(Config(SimpleMcpConfig(projectPath)))
    else if kind == "federated" then
      match SafeReadFile(store, FederatedConfigKey, Some(Config(DefaultFederatedConfig(projectPath))))
      case Success(config) => CreateSuccessResponse(config)
      case Failure(m) => CreateErrorResponse(McpConfigFailed, m)
    else
      CreateErrorResponse("Invalid MCP config type: " + kind, "Available types: simple, federated")
  }

  /** Only the type decides whether a configuration comes back; the stored
      federated file wins over the synthesised one, and the handler's own
      failure message is never produced. */
  lemma McpConfigOutcomes(store: ContentStore, kind: string, projectPath: string)
    ensures var r := McpConfigResponse(store, kind, projectPath);
            && (r.isError <==> kind != "simple" && kind != "federated")
            && (kind == "simple" ==> r.payload == Config(SimpleMcpConfig(projectPath)))
            && (kind == "federated" && FederatedConfigKey in store.files ==>
                  r.payload == Text(store.files[FederatedConfigKey]))
            && (kind == "federated" && FederatedConfigKey !in store.files ==>
                  r.payload == Config(DefaultFederatedConfig(projectPath)))
            && (r.isError ==>
                  r == CreateErrorResponse("Invalid MCP config type: " + kind, "Available types: simple, federated"))
  {
  }

  /** `ToolHandlers.getMcpConfig`, with the federated default built by the
      loop of `getDefaultFederatedConfig`. */
  method GetMcpConfig(store: ContentStore, kind: string, projectPath: string) returns (r: Envelope)
    ensures r == McpConfigResponse(store, kind, projectPath)
  {
    if kind == "simple" {
      r := CreateSuccessResponse(Config(SimpleMcpConfig(projectPath)));
    } else if kind == "federated" {
      var fallback := GetDefaultFederatedConfig(projectPath);
      var config := SafeReadFile(store, FederatedConfigKey, Some(Config(fallback)));
      if config.Success? {
        r := CreateSuccessResponse(config.value);
      } else {
        r := CreateErrorResponse(McpConfigFailed, config.error);
      }
    } else {
      r := CreateErrorResponse("Invalid MCP config type: " + kind, "Available types: simple, federated");
    }
  }

  // ---- getPhaseGuide ----

  /** `phaseFiles`; its integer-like keys come first in `Object.keys` in
      ascending order, which is also the order they are written in. */
  const PhaseFiles: Table := [
    ("0", "phases/DMProtocol_Phase0_PrePlanning.md"),
    ("1", "phases/DMProtocol_Phase1_Initialization.md"),
    ("2", "phases/DMProtocol_Phase2_WorldBuilding.md"),
    ("3", "phases/DMProtocol_Phase3_ChapterGeneration.md"),
    ("4", "phases/Phase4_QualityAssurance.md"),
    ("setup", ProjectSetupKey),
    ("core", CoreMethodologyKey),
    ("kg-setup", KgSetupKey),
    ("kg-advanced", KgAdvancedKey)]

  /** `ToolHandlers.getPhaseGuide(phase)` for the property key `phase`. */
  function PhaseGuideResponse(store: ContentStore, phase: string): Envelope
  {
    match Lookup(PhaseFiles, phase)
    case None =>
      CreateErrorResponse("Unknown phase: " + phase, "Available phases: " + JoinWith(Keys(PhaseFiles), ", "))
    case Some(filePath) =>
      match SafeReadFile(store, filePath, None)
      case Success(content) => CreateSuccessResponse(content)
      case Failure(m) => CreateErrorResponse("Failed to get phase " + phase + " guide", m)
  }

  lemma PhaseKeysDistinct()
    ensures KeysDistinct(PhaseFiles)
  {
    forall i, j | 0 <= i < j < |PhaseFiles|
      ensures PhaseFiles[i].0 != PhaseFiles[j].0
    {
      assert |PhaseFiles[i].0| != |PhaseFiles[j].0| || PhaseFiles[i].0[0] != PhaseFiles[j].0[0];
    }
  }

  /** A known phase answers with its guide, or with the read error; an
      unknown one with the nine phases in table order. */
  lemma PhaseGuideOutcomes(store: ContentStore, phase: string)
    ensures var r := PhaseGuideResponse(store, phase);
            && (r.isError ==> Marked(r.payload))
            && (phase !in Keys(PhaseFiles) ==>
                  r == CreateErrorResponse("Unknown phase: " + phase, "Available phases: " + JoinWith(Keys(PhaseFiles), ", ")))
            && (forall k :: 0 <= k < |PhaseFiles| && phase == PhaseFiles[k].0 ==>
                  (PhaseFiles[k].1 in store.files ==> r == CreateSuccessResponse(Text(store.files[PhaseFiles[k].1])))
                  && (PhaseFiles[k].1 !in store.files ==>
                        r == CreateErrorResponse("Failed to get phase " + phase + " guide", ReadFailedMessage(PhaseFiles[k].1, store.readError))))
  {
    LookupFound(PhaseFiles, phase);
    PhaseKeysDistinct();
    forall k | 0 <= k < |PhaseFiles| && phase == PhaseFiles[k].0
      ensures Lookup(PhaseFiles, phase) == Some(PhaseFiles[k].1)
    {
      LookupEntry(PhaseFiles, k);
    }
  }

  // ---- The tool-call handler ----

  /** What a tool call returns and the file system it leaves. */
  function ToolSpec(ns: seq<Node>, failing: map<string, string>, store: ContentStore, texts: SetupTexts, name: string, args: Args): Outcome
  {
    match Dispatch(name)
    case None => Outcome(ns, UnknownToolResponse(name))
    case Some(SetupTool) => SetupSpec(ns, failing, store, texts, DefaultParam(Arg(args, "project_path"), "."))
    case Some(TemplateTool(kind)) => Outcome(ns, TemplateResponse(store, kind, Arg(args, "format")))
    case Some(McpConfigTool) =>
      Outcome(ns, McpConfigResponse(store, DefaultParam(Arg(args, "type"), "federated"), DefaultParam(Arg(args, "project_path"), ".")))
    case Some(PhaseGuideTool) => Outcome(ns, PhaseGuideResponse(store, PropertyKey(Arg(args, "phase"))))
    case Some(ValidateTool) =>
      Outcome(ns, CreateSuccessResponse(Text(ValidationReport(ValidationLines(ns, failing, DefaultParam(Arg(args, "project_path"), "."))))))
  }

  /** The `CallTool` request handler. */
  method CallTool(fs: FileSystem, store: ContentStore, name: string, args: Args) returns (r: Envelope)
    requires fs.Valid()
    modifies fs
    ensures fs.Valid()
    ensures Outcome(fs.nodes, r) == ToolSpec(old(fs.nodes), fs.failing, store, CurrentSetupTexts, name, args)
  {
    match Dispatch(name)
    case None =>
      r := UnknownToolResponse(name);
    case Some(SetupTool) =>
      r := SetupProjectStructure(fs, store, CurrentSetupTexts, DefaultParam(Arg(args, "project_path"), "."));
    case Some(TemplateTool(kind)) =>
      r := GetTemplate(store, kind, Arg(args, "format"));
    case Some(McpConfigTool) =>
      r := GetMcpConfig(store, DefaultParam(Arg(args, "type"), "federated"), DefaultParam(Arg(args, "project_path"), "."));
    case Some(PhaseGuideTool) =>
      r := PhaseGuideResponse(store, PropertyKey(Arg(args, "phase")));
    case Some(ValidateTool) =>
      r := ValidateProjectConsistency(fs, DefaultParam(Arg(args, "project_path"), "."));
  }

  /** Only setup changes the file system. */
  lemma ToolCallKeepsFiles(ns: seq<Node>, failing: map<string, string>, store: ContentStore, texts: SetupTexts, name: string, args: Args)
    requires name != "setup_project_structure"
    ensures ToolSpec(ns, failing, store, texts, name, args).nodes == ns
  {
    assert Dispatch(name) != Some(SetupTool);
  }

  /** Every error a tool call reports is marked. */
  lemma ToolCallErrorsMarked(ns: seq<Node>, failing: map<string, string>, store: ContentStore, texts: SetupTexts, name: string, args: Args)
    ensures var r := ToolSpec(ns, failing, store, texts, name, args).response;
            r.isError ==> Marked(r.payload)
  {
    match Dispatch(name)
    case None =>
    case Some(SetupTool) =>
      var pp := DefaultParam(Arg(args, "project_path"), ".");
      if SetupSpec(ns, failing, store, texts, pp).response.isError {
        SetupFailure(ns, failing, store, texts, pp);
      }
    case Some(TemplateTool(kind)) =>
      TemplateOutcomes(store, kind, Arg(args, "format"));
    case Some(McpConfigTool) =>
    case Some(PhaseGuideTool) =>
      PhaseGuideOutcomes(store, PropertyKey(Arg(args, "phase")));
    case Some(ValidateTool) =>
  }

  /** An unknown tool is answered with the list of tools. */
  lemma UnknownTool(ns: seq<Node>, failing: map<string, string>, store: ContentStore, texts: SetupTexts, name: string, args: Args)
    requires name !in ToolNames
    ensures var r := ToolSpec(ns, failing, store, texts, name, args).response;
            && r.isError
            && r.payload == Text(FailureMark + "Unknown tool: " + name + "\n\n" + UnknownToolDetails)
  {
    DispatchCoversListing(name);
    UnknownToolText(name);
  }

  lemma UnknownToolText(name: string)
    ensures UnknownToolResponse(name).isError
    ensures UnknownToolResponse(name).payload == Text(FailureMark + "Unknown tool: " + name + "\n\n" + UnknownToolDetails)
  {
    assert |UnknownToolDetails| >= 17;
  }

  /** A missing project path is the current directory, for setup and for
      validation. */
  lemma SetupPathDefault(ns: seq<Node>, failing: map<string, string>, store: ContentStore, texts: SetupTexts)
    ensures ToolSpec(ns, failing, store, texts, "setup_project_structure", map[]) == SetupSpec(ns, failing, store, texts, ".")
  {
    assert Dispatch("setup_project_structure") == Some(SetupTool);
  }

  lemma ValidatePathDefault(ns: seq<Node>, failing: map<string, string>, store: ContentStore, texts: SetupTexts)
    ensures ToolSpec(ns, failing, store, texts, "validate_project_consistency", map[]) ==
            Outcome(ns, CreateSuccessResponse(Text(ValidationReport(ValidationLines(ns, failing, ".")))))
  {
    assert Dispatch("validate_project_consistency") == Some(ValidateTool);
  }

  /** A missing type is the federated configuration, and a missing path the
      current directory. */
  lemma McpConfigDefaults(ns: seq<Node>, failing: map<string, string>, store: ContentStore, texts: SetupTexts, projectPath: string)
    ensures ToolSpec(ns, failing, store, texts, "get_mcp_config", map[]) == Outcome(ns, McpConfigResponse(store, "federated", "."))
    ensures ToolSpec(ns, failing, store, texts, "get_mcp_config", map["project_path" := projectPath]) ==
            Outcome(ns, McpConfigResponse(store, "federated", projectPath))
  {
    assert Dispatch("get_mcp_config") == Some(McpConfigTool);
  }

  /** A missing format is the markdown format. */
  lemma ToolFormatDefault(ns: seq<Node>, failing: map<string, string>, store: ContentStore, texts: SetupTexts, name: string)
    requires name in ["get_character_template", "get_world_template", "get_plot_template"]
    ensures ToolSpec(ns, failing, store, texts, name, map[]) == ToolSpec(ns, failing, store, texts, name, map["format" := "markdown"])
  {
  }

  lemma UndefinedIsNoPhase()
    ensures "undefined" !in Keys(PhaseFiles)
    ensures Lookup(PhaseFiles, "undefined") == None
  {
    LookupFound(PhaseFiles, "undefined");
    forall k | 0 <= k < |PhaseFiles|
      ensures Keys(PhaseFiles)[k] != "undefined"
    {
      assert |PhaseFiles[k].0| != 9;
    }
  }

  /** A missing phase is looked up as "undefined", which is unknown. */
  lemma ToolPhaseDefault(ns: seq<Node>, failing: map<string, string>, store: ContentStore, texts: SetupTexts)
    ensures ToolSpec(ns, failing, store, texts, "get_phase_guide", map[]).response ==
            CreateErrorResponse("Unknown phase: undefined", "Available phases: " + JoinWith(Keys(PhaseFiles), ", "))
  {
    assert Dispatch("get_phase_guide") == Some(PhaseGuideTool);
    assert ToolSpec(ns, failing, store, texts, "get_phase_guide", map[]).response == PhaseGuideResponse(store, "undefined");
    UndefinedIsNoPhase();
    PhaseGuideOutcomes(store, "undefined");
  }

  // ---- Resources ----

  /** The resources `ListResources` announces. */
  const ListedResources := [
    "dm://methodology/core", "dm://methodology/setup", "dm://methodology/kg-setup",
    "dm://methodology/kg-advanced", "dm://templates/all", "dm://tools/quality-control",
    "dm://tools/checklists"]

  /** `resourceMap`. */
  const ResourceMap: Table := [
    ("dm://methodology/core", CoreMethodologyKey),
    ("dm://methodology/setup", ProjectSetupKey),
    ("dm://methodology/kg-integration", KgIntegrationKey),
    ("dm://methodology/kg-setup", KgSetupKey),
    ("dm://methodology/kg-advanced", KgAdvancedKey),
    ("dm://templates/all", TemplatesKey),
    ("dm://tools/quality-control", QualityControlKey),
    ("dm://tools/checklists", ChecklistsKey),
    ("dm://tools/troubleshooting", TroubleshootingKey),
    ("dm://config/federated", FederatedConfigKey)]

  /** A `ReadResource` reply: the text of its single content item. */
  datatype ResourceReply = ResourceReply(text: string, isError: bool)

  /** The `ReadResource` request handler. */
  function ReadResourceResponse(store: ContentStore, uri: string): ResourceReply
  {
    match Lookup(ResourceMap, uri)
    case None =>
      ResourceReply(FailureMark + "Unknown resource: " + uri + "\n\nAvailable resources:\n" + JoinWith(Keys(ResourceMap), "\n"), true)
    case Some(filePath) =>
      match SafeReadFile(store, filePath, None)
      case Success(content) => ResourceReply(content.text, false)
      case Failure(m) => ResourceReply(FailureMark + "Error reading resource: " + m, true)
  }

  lemma ResourceKeysDistinct()
    ensures KeysDistinct(ResourceMap)
  {
    forall i, j | 0 <= i < j < |ResourceMap|
      ensures ResourceMap[i].0 != ResourceMap[j].0
    {
      assert |ResourceMap[i].0| != |ResourceMap[j].0| || ResourceMap[i].0[5] != ResourceMap[j].0[5]
             || ResourceMap[i].0[11] != ResourceMap[j].0[11];
    }
  }

  /** Every listed resource is in the map; the map also serves three
      resources the listing does not announce. */
  lemma ListedResourcesMapped()
    ensures forall u :: u in ListedResources ==> u in Keys(ResourceMap)
    ensures forall k :: k in {2, 8, 9} ==> Keys(ResourceMap)[k] !in ListedResources
  {
    var keys := Keys(ResourceMap);
    assert ListedResources == [keys[0], keys[1], keys[3], keys[4], keys[5], keys[6], keys[7]];
    assert |keys[2]| == 31;
    assert |keys[8]| == 26 && keys[8][11] == 't';
    assert keys[9][5] == 'c';
  }

  /** A mapped resource answers with its file or with the read error; an
      unknown one with all mapped URIs, one per line. */
  lemma ResourceOutcomes(store: ContentStore, uri: string)
    ensures var r := ReadResourceResponse(store, uri);
            && (r.isError ==> |FailureMark| <= |r.text| && r.text[..|FailureMark|] == FailureMark)
            && (uri !in Keys(ResourceMap) ==>
                  r.isError &&
                  r.text == FailureMark + "Unknown resource: " + uri + "\n\nAvailable resources:\n" + JoinWith(Keys(ResourceMap), "\n"))
            && (forall k :: 0 <= k < |ResourceMap| && uri == ResourceMap[k].0 ==>
                  (ResourceMap[k].1 in store.files ==> r == ResourceReply(store.files[ResourceMap[k].1], false))
                  && (ResourceMap[k].1 !in store.files ==>
                        r == ResourceReply(FailureMark + "Error reading resource: " + ReadFailedMessage(ResourceMap[k].1, store.readError), true)))
  {
    LookupFound(ResourceMap, uri);
    ResourceKeysDistinct();
    forall k | 0 <= k < |ResourceMap| && uri == ResourceMap[k].0
      ensures Lookup(ResourceMap, uri) == Some(ResourceMap[k].1)
    {
      LookupEntry(ResourceMap, k);
    }
  }
}

/** How the current server (server.js) and the earlier one
    (mcp-server/digital-muse-protocol-server.js) answer the same requests
    differently: argument defaults, unknown names, setup and the federated
    configuration. */
module Versions {
  import opened Wrappers
  import opened Strings
  import opened Files
  import opened Documents
  import opened FileUtils
  import opened MemoryConfig
  import opened Project
  import opened ToolServer
  import opened LegacyServer

  /** A default parameter and `||` disagree exactly on an empty argument
      with a non-empty default. */
  lemma DefaultsDiffer(a: Option<string>, default: string)
    ensures JsOr(a, default) != DefaultParam(a, default) <==> a == Some("") && default != ""
  {
  }

  /** An empty `type` is refused by the current server and read as the
      federated configuration by the earlier one. */
  lemma EmptyConfigType(ns: seq<Node>, failing: map<string, string>, store: ContentStore, texts: SetupTexts, bodies: TemplateBodies, args: Args)
    requires Arg(args, "type") == Some("")
    ensures ToolSpec(ns, failing, store, texts, "get_mcp_config", args).response ==
            CreateErrorResponse("Invalid MCP config type: ", "Available types: simple, federated")
    ensures LegacyCall(ns, failing, texts, bodies, "get_mcp_config", args) ==
            Success(Outcome(ns, Envelope(Config(LegacyFederatedConfig), false)))
  {
    assert Dispatch("get_mcp_config") == Some(McpConfigTool);
    assert LegacyDispatch("get_mcp_config") == Some(McpConfigTool);
    var pp := DefaultParam(Arg(args, "project_path"), ".");
    assert ToolSpec(ns, failing, store, texts, "get_mcp_config", args).response == McpConfigResponse(store, "", pp);
    McpConfigOutcomes(store, "", pp);
  }

  /** An empty project path sets up the current directory in the earlier
      server; the current one joins the directories to the empty path,
      which names the same places. */
  lemma EmptyProjectPath(ns: seq<Node>, failing: map<string, string>, store: ContentStore, texts: SetupTexts, bodies: TemplateBodies)
    ensures ToolSpec(ns, failing, store, texts, "setup_project_structure", map["project_path" := ""]) == SetupSpec(ns, failing, store, texts, "")
    ensures LegacyCall(ns, failing, texts, bodies, "setup_project_structure", map["project_path" := ""]) ==
            Success(LegacySetupSpec(ns, failing, texts, "."))
    ensures forall d :: Join("", d) == Join(".", d)
  {
    assert Dispatch("setup_project_structure") == Some(SetupTool);
    assert LegacyDispatch("setup_project_structure") == Some(SetupTool);
  }

  /** An unknown tool is an error envelope in the current server and a
      thrown error in the earlier one, with the same message. */
  lemma UnknownToolContrast(ns: seq<Node>, failing: map<string, string>, store: ContentStore, texts: SetupTexts, bodies: TemplateBodies, name: string, args: Args)
    requires name !in ToolNames
    ensures var r := ToolSpec(ns, failing, store, texts, name, args);
            r.nodes == ns && r.response.isError && r.response == CreateErrorResponse("Unknown tool: " + name, UnknownToolDetails)
    ensures LegacyCall(ns, failing, texts, bodies, name, args) == Failure("Unknown tool: " + name)
  {
    DispatchCoversListing(name);
    assert Dispatch(name) == None;
    assert name !in LegacyToolNames;
    LegacyUnknownTool(ns, failing, texts, bodies, name, args);
  }

  /** The phase guides exist only in the current server. */
  lemma PhaseGuideOnlyCurrent(ns: seq<Node>, failing: map<string, string>, texts: SetupTexts, bodies: TemplateBodies, args: Args)
    ensures "get_phase_guide" in ToolNames && "get_phase_guide" !in LegacyToolNames
    ensures LegacyCall(ns, failing, texts, bodies, "get_phase_guide", args) == Failure("Unknown tool: " + "get_phase_guide")
  {
    LegacyUnknownTool(ns, failing, texts, bodies, "get_phase_guide", args);
  }

  /** Both setups succeed under the same conditions and leave the same
      entries; they differ only in the roadmap's text. */
  lemma SetupVersionsAgree(ns: seq<Node>, failing: map<string, string>, store: ContentStore, current: SetupTexts, legacy: SetupTexts, projectPath: string)
    ensures var o, l := SetupSpec(ns, failing, store, current, projectPath), LegacySetupSpec(ns, failing, legacy, projectPath);
            && o.response.isError == l.response.isError
            && (forall q :: HasPath(o.nodes, q) <==> HasPath(l.nodes, q))
            && (forall q :: IsDir(o.nodes, q) <==> IsDir(l.nodes, q))
            && (forall q :: q != RoadmapPath(projectPath) ==> FileText(o.nodes, q) == FileText(l.nodes, q))
  {
    var run := MkdirEach(ns, failing, projectPath, BookDirs);
    var rp := RoadmapPath(projectPath);
    if run.failure.None? {
      var w1, w2 := WriteFile(run.nodes, failing, rp, RoadmapText(store, current.roadmap)), WriteFile(run.nodes, failing, rp, legacy.roadmap);
      if w1.Success? {
        WriteFileProperties(run.nodes, failing, rp, RoadmapText(store, current.roadmap));
        WriteFileProperties(run.nodes, failing, rp, legacy.roadmap);
      }
    }
  }

  /** A directory that cannot be created is reported with its path under
      the current server's heading, and with the bare message by the earlier
      one. */
  lemma SetupMessagesDiffer(ns: seq<Node>, failing: map<string, string>, store: ContentStore, current: SetupTexts, legacy: SetupTexts, projectPath: string, m: string)
    requires Join(projectPath, BookDirs[0]) in failing && failing[Join(projectPath, BookDirs[0])] == m
    ensures SetupSpec(ns, failing, store, current, projectPath).response ==
            CreateErrorResponse(SetupFailed, DirectoryFailedMessage(Join(projectPath, BookDirs[0]), m))
    ensures LegacySetupSpec(ns, failing, legacy, projectPath).response.payload == Text(FailureMark + SetupErrorPrefix + m)
  {
  }

  /** The current directory's memory directory is the one the earlier
      table names. */
  lemma CurrentDirMemory()
    ensures MemoryDir(".") == LegacyMemoryDir
  {
  }

  /** For a project whose memory directory is the earlier server's (the
      current directory, by `CurrentDirMemory`), four of the five federated
      endpoints store their graph where the earlier table put it; the master
      story graph moved from `master_story_graph.json` to
      `master_story.json`, since the name has no `_memory` to replace. */
  lemma FederatedFilesMoved(projectPath: string)
    requires MemoryDir(projectPath) == LegacyMemoryDir
    ensures |DefaultFederatedConfig(projectPath).servers| == 5
    ensures forall k :: 1 <= k < 5 ==>
              DefaultFederatedConfig(projectPath).servers[k].memoryFilePath == LegacyFederatedConfig.servers[k].memoryFilePath
    ensures DefaultFederatedConfig(projectPath).servers[0].memoryFilePath == LegacyMemoryDir + "master_story.json"
    ensures LegacyFederatedConfig.servers[0].memoryFilePath == LegacyMemoryDir + "master_story_graph.json"
    ensures Names(DefaultFederatedConfig(projectPath)) == Names(LegacyFederatedConfig)
  {
    FederatedLayout(projectPath);
    LegacyPaths();
    SameGraphFiles();
    LegacyFederatedLayout();
  }

  /** The earlier server's federated paths. */
  lemma LegacyPaths()
    ensures |LegacyFederatedConfig.servers| == 5
    ensures forall k :: 0 <= k < 5 ==> LegacyFederatedConfig.servers[k].memoryFilePath == LegacyMemoryDir + LegacyGraphFiles[k]
  {
    LegacyFederatedLayout();
  }

  lemma SameGraphFiles()
    ensures FederatedFiles[0] == "master_story.json" && LegacyGraphFiles[0] == "master_story_graph.json"
    ensures forall k :: 1 <= k < 5 ==> FederatedFiles[k] == LegacyGraphFiles[k]
  {
  }
}

/** The knowledge-graph memory configurations of server.js:
    `getSimpleMcpConfig` (one graph for the whole project) and
    `getDefaultFederatedConfig` (one graph per concern). */
module MemoryConfig {
  import opened Strings
  import opened Documents

  /** The nine graph operations every endpoint pre-approves, in order. */
  const AutoApprove := [
    "create_entities", "create_relations", "add_observations",
    "delete_entities", "delete_observations", "delete_relations",
    "read_graph", "search_nodes", "open_nodes"]

  const SimpleServerName := "dm_protocol_memory"

  /** The federated servers, in the order the configuration lists them. */
  const FederatedServers := ["master_story", "character_memory", "world_memory", "plot_memory", "narrative_memory"]

  /** The storage file of each federated server, in the same order. */
  const FederatedFiles := ["master_story.json", "character_graph.json", "world_graph.json", "plot_graph.json", "narrative_graph.json"]

  /** Where the memory files live: a template literal, not `path.join`. */
  function MemoryDir(projectPath: string): string {
    projectPath + "/book/memory/"
  }

  /** `ToolHandlers.getSimpleMcpConfig(projectPath)`, before serialisation. */
  function SimpleMcpConfig(projectPath: string): ConfigDoc {
    ConfigDoc([Endpoint(SimpleServerName, MemoryServerCommand, MemoryServerArgs,
                        MemoryDir(projectPath) + SimpleServerName + ".json", AutoApprove)])
  }

  /** The storage file of a federated server: its name with the first
      "_memory" replaced by "_graph", and ".json". */
  function GraphFile(server: string): string {
    ReplaceFirst(server, "_memory", "_graph") + ".json"
  }

  function FederatedEndpoint(projectPath: string, server: string): Endpoint {
    Endpoint(server, MemoryServerCommand, MemoryServerArgs, MemoryDir(projectPath) + GraphFile(server), AutoApprove)
  }

  /** `config.mcpServers[e.name] = e`: an entry of that name is replaced where
      it stands, otherwise `e` is added at the end. */
  function SetServer(c: ConfigDoc, e: Endpoint): (r: ConfigDoc)
    ensures exists k :: 0 <= k < |r.servers| && r.servers[k] == e
    ensures e.name in Names(c) ==> |r.servers| == |c.servers|
    ensures e.name !in Names(c) ==> r.servers == c.servers + [e]
    ensures forall k :: 0 <= k < |c.servers| && c.servers[k].name != e.name ==> r.servers[k] == c.servers[k]
  {
    if e.name in Names(c) then
      var r := ConfigDoc(seq(|c.servers|, k requires 0 <= k < |c.servers| =>
                               if c.servers[k].name == e.name then e else c.servers[k]));
      var k :| 0 <= k < |c.servers| && Names(c)[k] == e.name;
      assert r.servers[k] == e;
      r
    else
      assert (c.servers + [e])[|c.servers|] == e;
      ConfigDoc(c.servers + [e])
  }

  /** The configuration after the `forEach` over `servers`. */
  function Federated(projectPath: string, servers: seq<string>): ConfigDoc
  {
    if servers == [] then ConfigDoc([])
    else SetServer(Federated(projectPath, servers[..|servers| - 1]), FederatedEndpoint(projectPath, servers[|servers| - 1]))
  }

  /** The configuration `getDefaultFederatedConfig(projectPath)` serialises. */
  function DefaultFederatedConfig(projectPath: string): ConfigDoc {
    Federated(projectPath, FederatedServers)
  }

  /** `ToolHandlers.getDefaultFederatedConfig(projectPath)`, before
      serialisation. */
  method GetDefaultFederatedConfig(projectPath: string) returns (c: ConfigDoc)
    ensures c == DefaultFederatedConfig(projectPath)
  {
    c := AssignServers(projectPath, FederatedServers);
  }

  /** The `forEach` of `getDefaultFederatedConfig`: one assignment per
      server, in order, starting from an empty table. */
  method AssignServers(projectPath: string, servers: seq<string>) returns (c: ConfigDoc)
    ensures c == Federated(projectPath, servers)
  {
    c := ConfigDoc([]);
    var i := 0;
    while i < |servers|
      invariant 0 <= i <= |servers|
      invariant c == Federated(projectPath, servers[..i])
    {
      assert servers[..i + 1][..i] == servers[..i];
      c := SetServer(c, FederatedEndpoint(projectPath, servers[i]));
      i := i + 1;
    }
    assert servers[..|servers|] == servers;
  }

  /** With distinct server names, every assignment adds a new entry, so the
      configuration lists one endpoint per server, in order. */
  lemma {:induction false} FederatedInOrder(projectPath: string, servers: seq<string>)
    requires forall i, j :: 0 <= i < j < |servers| ==> servers[i] != servers[j]
    ensures |Federated(projectPath, servers).servers| == |servers|
    ensures forall k :: 0 <= k < |servers| ==> Federated(projectPath, servers).servers[k] == FederatedEndpoint(projectPath, servers[k])
  {
    if servers != [] {
      var init := servers[..|servers| - 1];
      var last := servers[|servers| - 1];
      FederatedInOrder(projectPath, init);
      var c := Federated(projectPath, init);
      assert last !in Names(c) by {
        forall k | 0 <= k < |c.servers|
          ensures Names(c)[k] != last
        {
          assert init[k] == servers[k];
        }
      }
      var e := FederatedEndpoint(projectPath, last);
      assert Federated(projectPath, servers).servers == c.servers + [e];
      forall k | 0 <= k < |servers|
        ensures (c.servers + [e])[k] == FederatedEndpoint(projectPath, servers[k])
      {
        if k < |init| {
          assert init[k] == servers[k];
        }
      }
    }
  }

  /** A server named `stem` + "_memory", with no '_' in `stem`, stores its
      graph in `stem` + "_graph.json". */
  lemma MemoryGraphFile(stem: string)
    requires '_' !in stem
    ensures GraphFile(stem + "_memory") == stem + "_graph.json"
  {
    ReplaceFirstAt(stem, "_memory", "_graph", "");
    assert stem + "_memory" + "" == stem + "_memory";
    assert stem + "_graph" + "" + ".json" == stem + "_graph.json";
  }

  /** The storage file of each federated server: the four `<stem>_memory`
      names by `MemoryGraphFile`, one lemma per name below so that the solver
      evaluates one literal name at a time, and `master_story` by
      `MasterGraphFile`. */
  lemma GraphFileAt(k: nat)
    requires k < 5
    ensures GraphFile(FederatedServers[k]) == FederatedFiles[k]
  {
    if k == 0 {
      MasterGraphFile();
    } else if k == 1 {
      CharacterGraphFile();
    } else if k == 2 {
      WorldGraphFile();
    } else if k == 3 {
      PlotGraphFile();
    } else {
      NarrativeGraphFile();
    }
  }

  lemma CharacterGraphFile()
    ensures GraphFile("character_memory") == "character_graph.json"
  {
    MemoryGraphFile("character");
    assert "character" + "_memory" == "character_memory";
    assert "character" + "_graph.json" == "character_graph.json";
  }

  lemma WorldGraphFile()
    ensures GraphFile("world_memory") == "world_graph.json"
  {
    MemoryGraphFile("world");
    assert "world" + "_memory" == "world_memory";
    assert "world" + "_graph.json" == "world_graph.json";
  }

  lemma PlotGraphFile()
    ensures GraphFile("plot_memory") == "plot_graph.json"
  {
    MemoryGraphFile("plot");
    assert "plot" + "_memory" == "plot_memory";
    assert "plot" + "_graph.json" == "plot_graph.json";
  }

  lemma NarrativeGraphFile()
    ensures GraphFile("narrative_memory") == "narrative_graph.json"
  {
    MemoryGraphFile("narrative");
    assert "narrative" + "_memory" == "narrative_memory";
    assert "narrative" + "_graph.json" == "narrative_graph.json";
  }

  /** "master_story" has no "_memory" to replace, so its file is the name
      and ".json". */
  lemma MasterGraphFile()
    ensures GraphFile("master_story") == "master_story.json"
  {
    ReplaceFirstAbsent("master_story", "_memory", "_graph");
    assert "master_story"[..6] == "master";
  }

  /** The default federated configuration has one endpoint per federated
      server, in order. */
  lemma DefaultFederatedEndpoints(projectPath: string)
    ensures |DefaultFederatedConfig(projectPath).servers| == 5
    ensures forall k :: 0 <= k < 5 ==> DefaultFederatedConfig(projectPath).servers[k] == FederatedEndpoint(projectPath, FederatedServers[k])
  {
    var servers := FederatedServers;
    forall i, j | 0 <= i < j < |servers|
      ensures servers[i] != servers[j]
    {
      assert servers[i][|servers[i]| - 1] != servers[j][|servers[j]| - 1] || servers[i][0] != servers[j][0];
    }
    FederatedInOrder(projectPath, servers);
  }

  /** The federated storage files are pairwise different. */
  lemma FederatedFilesDistinct(dir: string)
    ensures forall i, j :: 0 <= i < j < 5 ==> dir + FederatedFiles[i] != dir + FederatedFiles[j]
  {
    forall i, j | 0 <= i < j < 5
      ensures dir + FederatedFiles[i] != dir + FederatedFiles[j]
    {
      assert FederatedFiles[i][0] != FederatedFiles[j][0];
      PrefixedDistinct(dir, FederatedFiles[i], FederatedFiles[j]);
    }
  }

  /** The federated configuration lists the five servers in order, each
      launched the same way with the same nine operations, each storing its
      graph in its own file in the project's memory directory. */
  lemma FederatedLayout(projectPath: string)
    ensures var c := DefaultFederatedConfig(projectPath);
            && Names(c) == FederatedServers
            && (forall k :: 0 <= k < 5 ==> c.servers[k].memoryFilePath == MemoryDir(projectPath) + FederatedFiles[k])
            && (forall k :: 0 <= k < 5 ==> c.servers[k].command == MemoryServerCommand && c.servers[k].args == MemoryServerArgs)
            && SharedOperations(c, AutoApprove)
            && StorageDistinct(c)
  {
    var c := DefaultFederatedConfig(projectPath);
    DefaultFederatedEndpoints(projectPath);
    forall k | 0 <= k < 5
      ensures c.servers[k].memoryFilePath == MemoryDir(projectPath) + FederatedFiles[k]
    {
      GraphFileAt(k);
    }
    FederatedFilesDistinct(MemoryDir(projectPath));
  }

  /** The simple configuration has one endpoint, launched like the federated
      ones with the same operations, whose file is none of theirs. */
  lemma SimpleLayout(projectPath: string)
    ensures var c := SimpleMcpConfig(projectPath);
            && Names(c) == [SimpleServerName]
            && c.servers[0].memoryFilePath == MemoryDir(projectPath) + "dm_protocol_memory.json"
            && c.servers[0].command == MemoryServerCommand && c.servers[0].args == MemoryServerArgs
            && SharedOperations(c, AutoApprove)
            && |DefaultFederatedConfig(projectPath).servers| == 5
            && forall k :: 0 <= k < 5 ==> c.servers[0].memoryFilePath != DefaultFederatedConfig(projectPath).servers[k].memoryFilePath
  {
    FederatedLayout(projectPath);
    var dir := MemoryDir(projectPath);
    assert SimpleServerName + ".json" == "dm_protocol_memory.json";
    assert dir + SimpleServerName + ".json" == dir + (SimpleServerName + ".json");
    SimpleFileNotFederated(dir);
  }

  /** The simple endpoint's file is none of the federated files. */
  lemma SimpleFileNotFederated(dir: string)
    ensures forall k :: 0 <= k < 5 ==> dir + "dm_protocol_memory.json" != dir + FederatedFiles[k]
  {
    forall k | 0 <= k < 5
      ensures dir + "dm_protocol_memory.json" != dir + FederatedFiles[k]
    {
      assert "dm_protocol_memory.json"[0] != FederatedFiles[k][0];
      PrefixedDistinct(dir, "dm_protocol_memory.json", FederatedFiles[k]);
    }
  }
}



# Digital Muse Protocol tool server — a Dafny model

The Digital Muse Protocol server answers tool calls and resource reads from
an MCP client. It serves methodology documents and templates for writing a
novel, synthesises memory-server configurations, and sets up and checks a
book project on disk. This project models the request routing and the
content resolution of two versions of the server:

- the current server, `server.js`, with `FileUtils` and all of `ToolHandlers`;
- the earlier server, `mcp-server/digital-muse-protocol-server.js`, with its
  `||` argument defaults, inline configuration table, inline roadmap and stub
  handlers.

Modules, in dependency order:

| file | module | what it holds |
|---|---|---|
| `wrappers.dfy` | `Wrappers` | `Option` and `Result` |
| `strings.dfy` | `Strings` | `indexOf`, `split`, `join`, `trim`, `endsWith`, first-occurrence `replace`, decimal rendering of a count |
| `files.dfy` | `Files` | the file system: an abstract sequence of directory and file entries in creation order, with the paths whose operations throw; `mkdir -p`, `writeFile`, `access`, `readdir`; class `FileSystem` |
| `documents.dfy` | `Documents` | endpoints, configuration and template documents, payloads, response envelopes |
| `file_utils.dfy` | `FileUtils` | `safeReadFile`, `ensureDirectory`, `createSuccessResponse`, `createErrorResponse` |
| `tables.dfy` | `Tables` | object literals used as lookup tables; `Object.keys` |
| `templates.dfy` | `Templates` | `extractTemplateSection`, `convertTemplateToJson` |
| `memory_config.dfy` | `MemoryConfig` | `getSimpleMcpConfig`, `getDefaultFederatedConfig` |
| `project.dfy` | `Project` | `setupProjectStructure`, `validateProjectConsistency` |
| `tool_server.dfy` | `ToolServer` | `FILE_PATHS`, `getTemplate`, `getMcpConfig`, `getPhaseGuide`, the tool switch and the resource map |
| `legacy_server.dfy` | `LegacyServer` | the earlier server's dispatch, setup, configuration table, template format switch and stubs |
| `versions.dfy` | `Versions` | where the two versions answer the same request differently |

Modelling choices:

- **Content.** The content root that `safeReadFile` reads from is a
  `ContentStore`. It maps logical keys (`templates/DMProtocol_Templates.md`, …)
  to text and carries one message for every failed read.
- **Project directory.** The directory the handlers write to is a
  `FileSystem`. Its `failing` map names the paths whose `mkdir`, `writeFile`,
  `access` or `readdir` throw, and their messages.
- **Loops.** Code that loops is kept as methods with `while` loops:
  - the directory loop of both setups;
  - the two loops of validation;
  - the `forEach` loops that fill `config.mcpServers` and `jsonTemplate.structure`.

  Each method is proved equal to a specification function, and the
  properties are lemmas about those functions.
- **Arguments.** Tool arguments are a `map<string, string>`; a missing key is
  an absent argument. In `server.js` a default parameter replaces only an
  absent argument, while the earlier server's `||` also replaces an empty
  string.
- **Paths.** `path.join(a, b)` is `a + "/" + b`, with a base of `""` or
  `"."` dropped. The base is otherwise kept as given: `path.join` would also
  normalise it (`p/` and `./p` both become `p`), and the model does not (see
  "## Left out").
- **Ancestors.** A path lies under a file when the part before one of its
  slashes is a file. `mkdir -p` and `writeFile` then throw `ENOTDIR`, so a
  file at `<project>/book`, or a project path that names a file, stops setup
  (`Project.FileAboveBook`).
- **Setup texts.** The built-in roadmap and the success report of setup are
  a `SetupTexts` value passed to the setup specifications, so the
  properties hold for any texts. `Project.CurrentSetupTexts` and
  `LegacyServer.LegacySetupTexts` hold each version's own texts. The request
  handlers `ToolServer.CallTool` and `LegacyServer.LegacyCallTool` use them.

A federated server's storage file comes from
`server.replace('_memory', '_graph')` (server.js:396), which replaces the
first occurrence of `_memory`. `master_story` has none and keeps its name,
so its graph is `master_story.json` (`MemoryConfig.GraphFileAt`).

## Model

| member | source | states |
|---|---|---|
| Strings.IndexOf | server.js:337-340 | `indexOf(p, from)` is -1 or an occurrence at or after `from`, and no occurrence lies between `from` and it |
| Strings.IndexOfIs | server.js:337-340 | the first occurrence at or after `from` is what `indexOf` returns |
| Strings.NoOccurrenceInSlice | server.js:341-343 | a slice holding no occurrence of a pattern does not contain it |
| Strings.Split | server.js:357 | `split` yields at least one part |
| Strings.SplitPiecesFree | server.js:357 | no part of a split contains the separator, so with the round trip the parts are exactly the text between separators |
| Strings.JoinSplit | server.js:359-361 | joining the parts of a split with the same separator gives back the original string |
| Strings.SplitFirst | server.js:359-361 | the first part of a split is the text before the first separator, and joining the rest gives the text after it |
| Strings.FirstNonSpace | server.js:345 | everything before the index is white space and the character at it is not |
| Strings.EndNonSpace | server.js:345 | everything from the index on is white space and the character before it is not |
| Strings.Trim | server.js:345 | `trim` gives a string that is empty or starts and ends with a non-space, and it is empty exactly when the input is all white space |
| Strings.TrimKeepsPrefix | server.js:345 | trimming keeps a prefix that starts and ends with a non-space |
| Strings.TrimNoOccurrence | server.js:345 | trimming cannot create an occurrence of a pattern |
| Strings.ReplaceFirstAt | server.js:396 | `replace` swaps the first occurrence and leaves the text around it alone |
| Strings.ReplaceFirstAbsent | server.js:396 | `replace` leaves a string without the pattern unchanged |
| Strings.PrefixedDistinct | server.js:396 | the same prefix on two different names gives two different paths |
| Strings.NatToString | server.js:268 | a count renders as at least one decimal digit, without a leading zero |
| Strings.DecimalRoundTrip | server.js:268 | the rendered count reads back as the count |
| Files.JoinDistinct | server.js:125 | `path.join` of one base with two different parts gives two different paths |
| Files.Overwrite | server.js:136 | overwriting a file keeps every entry's path and kind |
| Files.ChildNameJoin | server.js:260-261 | an entry's name within a directory does not depend on the common project path |
| Files.ChildrenExact | server.js:261 | `readdir` lists exactly the names of the entries directly inside the directory |
| Files.ChildrenNone | server.js:261 | a directory with nothing directly inside it lists nothing |
| Files.MkdirEach | server.js:124-127 | the directory loop stops at a failure, and without a failure it created every directory |
| Files.UnderFileSameFiles | server.js:89 | whether a path lies under a file depends only on which files exist |
| Files.MkdirProperties | server.js:89 | `mkdir -p` leaves the directory present, loses and retypes nothing, keeps every file's text, and repeating it is a no-op |
| Files.FileTextAppendDir | server.js:89 | creating a directory changes no file's text |
| Files.WriteNotUnderFile | server.js:136 | a write puts no path under a file unless it writes one of that path's ancestors |
| Files.ChildrenDistinct | server.js:262 | with unique paths, `readdir` lists each name once |
| Files.WriteFileProperties | server.js:136 | `writeFile` leaves the new text at its path, keeps every other file's text and every directory, and creates nothing except that path |
| Files.WriteKeepsOthers | server.js:136 | writing one path leaves the text of every other path unchanged |
| Files.OverwriteText | server.js:136 | overwriting an existing file leaves the new text |
| Files.AppendFileText | server.js:136 | writing a new file leaves its text |
| Files.OverwriteSame | server.js:136 | writing the text a file already holds changes nothing |
| Files.UniquePreserved | server.js:89 | creating a directory or writing a file keeps every path unique |
| Files.MkdirEachKeeps | server.js:124-127 | the loop keeps every existing entry and file text, created the directories before the one it stopped at, and reports that path |
| Files.MkdirEachOnly | server.js:124-127 | the loop creates no path other than its directories |
| Files.MkdirEachFailure | server.js:89-92 | the loop's failure carries the message the failing path throws, then `ENOTDIR` when a file lies above the path, then "file exists" when a file is at the path |
| Files.MkdirEachNoRetype | server.js:89 | the loop turns no existing file into a directory |
| Files.MkdirEachPresent | server.js:89 | when every directory already exists, the loop changes nothing and succeeds |
| Files.MkdirEachUnobstructed | server.js:124-127 | with no failing path, no file at a directory's path and none above it, the loop succeeds |
| Files.FileSystem.constructor | server.js:89 | a file system starts with the given entries and failing paths |
| Files.FileSystem.MakeDirectory | server.js:89 | `fs.mkdir(p, {recursive: true})` either creates the directory, or leaves the state unchanged and returns the thrown message |
| Files.FileSystem.WriteTextFile | server.js:136 | `fs.writeFile` either writes the file, or leaves the state unchanged and returns the thrown message |
| Documents.Names | server.js:391-392 | the server names of a configuration, in order |
| FileUtils.SafeReadFile | server.js:75-85 | a readable file yields its text; otherwise a truthy fallback is substituted, or the read fails with "Failed to read file <path>: <message>" |
| FileUtils.CreateSuccessResponse | server.js:96-100 | a success envelope carries the content and is not an error |
| FileUtils.CreateErrorResponse | server.js:102-108 | an error envelope reads "❌ " + message, followed by "\n\n" + details when the details are non-empty |
| FileUtils.EnsureDirectory | server.js:87-94 | creates the directory, or leaves the state unchanged and returns "Failed to create directory <path>: <message>" |
| Tables.Keys | server.js:225 | `Object.keys` lists the keys in table order |
| Tables.LookupFound | server.js:221-222 | a lookup finds a value exactly for the table's keys, and then a value stored under that key |
| Tables.LookupEntry | server.js:209-221 | with distinct keys, looking up an entry's key gives that entry's value |
| Templates.MarkersAreHeadings | server.js:328-332 | each start and end marker is a level-two heading, and the two titles differ in their first letter |
| Templates.HeadingsDisjoint | server.js:340 | an end marker cannot begin inside an occurrence of the start marker |
| Templates.ExtractNotFound | server.js:337-338 | without the start marker, the section is exactly "Template for <type> not found" |
| Templates.ExtractFound | server.js:337-345 | the section is the trimmed slice from the first start marker to the first end marker at or after it, or to the end of the document; an end marker only before the start counts as absent |
| Templates.SliceShape | server.js:341-343 | a slice that starts with the start marker and holds no end marker keeps both properties |
| Templates.SectionShape | server.js:340-343 | the untrimmed section begins with the start marker and contains no end marker |
| Templates.ExtractShape | server.js:337-345 | a found section begins with its start marker and contains no end marker |
| Templates.SectionLines | server.js:359-361 | a chunk's title and value are the trimmed text before and after the first line break of the trimmed chunk |
| Templates.AssignKeys | server.js:358-363 | the structure has exactly the titles of the chunks as keys |
| Templates.AssignLastWins | server.js:362 | a key holds the value of the last entry with that key |
| Templates.StructureKeys | server.js:357-363 | the structure's keys are exactly the titles of the `###` chunks after the first |
| Templates.StructureLastWins | server.js:362 | when a title repeats, the later chunk's value wins |
| Templates.ConvertTemplateToJson | server.js:348-366 | the document has the requested type, the structure of the `###` chunks and "Complete <type> template following Digital Muse Protocol guidelines" |
| MemoryConfig.SetServer | server.js:392 | assigning `config.mcpServers[name]` adds the endpoint at the end, or replaces the one with that name in place, leaving the rest alone |
| MemoryConfig.GetDefaultFederatedConfig | server.js:387-407 | the handler returns the default federated configuration |
| MemoryConfig.AssignServers | server.js:391-404 | the `forEach` loop leaves the configuration built by one assignment per server, in order, from an empty table |
| MemoryConfig.FederatedInOrder | server.js:391-404 | with distinct names, the loop yields one endpoint per server, in order |
| MemoryConfig.MemoryGraphFile | server.js:396 | a server named `<stem>_memory` stores its graph in `<stem>_graph.json` |
| MemoryConfig.GraphFileAt | server.js:388-396 | the five file names derived by the first-occurrence replacement: `<stem>_graph.json` for the four `<stem>_memory` servers and `master_story.json` |
| MemoryConfig.MasterGraphFile | server.js:388-396 | `master_story` has no `_memory` to replace, so it stores its graph in `master_story.json` |
| MemoryConfig.DefaultFederatedEndpoints | server.js:387-407 | five endpoints, one per federated server, in listing order |
| MemoryConfig.FederatedFilesDistinct | server.js:396 | the five storage files are pairwise different |
| MemoryConfig.FederatedLayout | server.js:387-407 | the federated servers in order, launched alike with the nine operations, each at `<projectPath>/book/memory/<file>`, in pairwise different files |
| MemoryConfig.SimpleLayout | server.js:368-385 | one endpoint `dm_protocol_memory` at `<projectPath>/book/memory/dm_protocol_memory.json` with the nine operations, in a file none of the federated endpoints uses |
| MemoryConfig.SimpleFileNotFederated | server.js:375-396 | the simple endpoint's file name is none of the five federated file names |
| Project.Bullets | server.js:140 | one line per directory, each line the prefix followed by that directory |
| Project.RoadmapText | server.js:130-133 | the roadmap is the template file's text, or the built-in default when the file cannot be read |
| Project.SetupProjectStructure | server.js:113-153 | the directory loop and the roadmap write yield the state and the envelope the setup specification gives |
| Project.SetupPathsDistinct | server.js:115-135 | the five directories and the roadmap are six different paths |
| Project.SetupSucceedsIff | server.js:113-153 | setup succeeds exactly when no path it touches fails, no file sits where a directory goes or above it, and neither a directory where the roadmap goes nor a file above it |
| Project.FileAboveBook | server.js:124-127 | with a file at `p/book`, setup of `p` fails at `p/book/memory` with `ENOTDIR` and changes nothing |
| Project.SetupLayout | server.js:124-146 | after success the five directories exist, the roadmap holds the template text, nothing is lost, no other file changes and nothing else is created |
| Project.SetupFailure | server.js:147-152 | a failure is "❌ Failed to create project structure" with the failing directory's or the roadmap's message (the failing path's own, `ENOTDIR` under a file, or the type conflict); directories created before it stay, and no file changes |
| Project.SetupIdempotent | server.js:113-153 | running setup again after a success changes nothing and gives the same answer |
| Project.MissingDirs | server.js:244-253 | at most one missing entry per required directory |
| Project.KnowledgeGraphs | server.js:262 | the filter keeps at most as many entries as it is given |
| Project.KeyFileLines | server.js:273-281 | one report line per key file |
| Project.CheckDirectories | server.js:244-253 | the `access` loop collects the missing directories, in list order |
| Project.CheckKeyFiles | server.js:272-281 | the key-file loop reports each file as present or missing |
| Project.ValidateProjectConsistency | server.js:239-294 | validation changes nothing and always answers with a success envelope holding the report lines |
| Project.MissingDirsExact | server.js:244-253 | a directory is reported missing exactly when it is required and not accessible |
| Project.MissingLine | server.js:244-257 | `book/chapters` is never checked; the missing-directories line appears first exactly when one of the four is inaccessible |
| Project.KnowledgeGraphsExact | server.js:262 | the graphs are exactly the `.json` entries of the memory directory |
| Project.KnowledgeGraphsDistinct | server.js:262 | filtering a list without repeats gives a list without repeats |
| Project.GraphsDistinct | server.js:261-262 | on a file system with unique paths, each knowledge graph is listed and counted once |
| Project.UnlistableMemory | server.js:261-266 | an absent or unreadable memory directory counts no graph and gives the warning and the hint |
| Project.GraphCount | server.js:267-270 | with graphs present the report gives their number, which reads back as the count, and one line per graph |
| Project.SetupLeavesRequired | server.js:113-253 | after a successful setup no required directory is missing |
| Project.SetupDirsAccessible | server.js:124-249 | after a successful setup each of the five directories passes `access` |
| Project.NoneMissing | server.js:244-253 | when every directory passes `access`, none is reported missing |
| Project.RoadmapFound | server.js:276-277 | an accessible roadmap is reported as present |
| Project.SetupLeavesRoadmap | server.js:135-277 | after a successful setup the roadmap is reported as present |
| Project.CompleteProject | server.js:239-287 | a complete project's report is the graph lines followed by the roadmap line |
| Project.MemoryListed | server.js:261 | a readable memory directory lists its entries |
| Project.NoMissingLine | server.js:255-281 | without a missing directory the report starts with the graph lines |
| Project.SetupThenValidate | server.js:113-287 | validation after a successful setup reports no missing directory and finds the roadmap |
| Project.FreshMemoryEmpty | server.js:124-261 | the memory directory of a freshly set-up project is empty |
| Project.FreshProject | server.js:113-287 | setting up an empty project succeeds, and validation then warns about the graphs, gives the hint and finds the roadmap |
| Project.NoMemoryChild | server.js:125-260 | nothing setup creates lies directly inside the memory directory |
| ToolServer.Arg | server.js:545 | an argument is present exactly when its key is |
| ToolServer.DefaultParam | server.js:113-239 | a default parameter replaces only an absent argument |
| ToolServer.DispatchCoversListing | server.js:439-573 | the switch has a case exactly for the seven listed tool names |
| ToolServer.TemplateToolKinds | server.js:552-557 | every template case names a template type that has markers (markers at lines 328-332) |
| ToolServer.TemplateOutcomes | server.js:155-181 | a template answers exactly for the three types and a readable templates file; `json` gives the converted section, any other format the section; errors carry the mark |
| ToolServer.TemplateFormatsAgree | server.js:164-174 | the JSON answer is the conversion of the markdown answer, and both fail alike |
| ToolServer.InvalidTemplateType | server.js:157-162 | an unknown type gives, whatever the format and the content, the error response with message "Invalid template type: <type>" and details "Available types: character, world, plot" |
| ToolServer.GetTemplate | server.js:155-181 | the handler answers as the template specification says |
| ToolServer.McpConfigOutcomes | server.js:183-205 | `simple` gives the simple configuration; `federated` the stored file when readable and the synthesised default otherwise; any other type is an error naming simple and federated (configurations at lines 368-407) |
| ToolServer.GetMcpConfig | server.js:183-205 | the handler answers as the configuration specification says |
| ToolServer.PhaseKeysDistinct | server.js:209-219 | the nine phase keys are distinct |
| ToolServer.PhaseGuideOutcomes | server.js:207-237 | a known phase gives its guide, or "Failed to get phase <p> guide" with the read message; an unknown phase gives "Unknown phase" with the nine phases in map order |
| ToolServer.CallTool | server.js:543-581 | a tool call yields the state and the envelope the tool specification gives |
| ToolServer.ToolCallKeepsFiles | server.js:546-573 | only `setup_project_structure` changes the file system |
| ToolServer.ToolCallErrorsMarked | server.js:543-581 | every error a tool call returns starts with "❌ " (the errors are built at lines 102-108) |
| ToolServer.UnknownTool | server.js:569-573 | an unlisted tool gives "❌ Unknown tool: <name>" followed by the available tools |
| ToolServer.UnknownToolText | server.js:569-573 | the text of the unknown-tool envelope |
| ToolServer.SetupPathDefault | server.js:113 | setup without a project path works on `.` (dispatched at line 549) |
| ToolServer.ValidatePathDefault | server.js:239 | validation without a project path checks `.` (dispatched at line 567) |
| ToolServer.McpConfigDefaults | server.js:183 | the configuration type defaults to `federated` and the project path to `.` (dispatched at lines 561-562) |
| ToolServer.ToolFormatDefault | server.js:155 | a template without a format is the markdown one (dispatched at lines 551-557) |
| ToolServer.UndefinedIsNoPhase | server.js:209-222 | a missing phase, looked up as the key `undefined`, finds nothing |
| ToolServer.ToolPhaseDefault | server.js:221-226 | a phase-guide call without a phase gives "Unknown phase: undefined" with the phase list (dispatched at line 564) |
| ToolServer.ResourceKeysDistinct | server.js:638-649 | the ten resource URIs are distinct |
| ToolServer.ListedResourcesMapped | server.js:586-649 | every listed URI has a key in the resource map; three keys of the map are not listed |
| ToolServer.ResourceOutcomes | server.js:634-684 | a known URI gives its file or "❌ Error reading resource: <message>"; an unknown one gives "❌ Unknown resource: <uri>" with the URIs one per line |
| LegacyServer.JsOr | mcp-server/digital-muse-protocol-server.js:175-190 | `a \|\| fallback` keeps a non-empty argument and replaces a missing or empty one |
| LegacyServer.SetupError | mcp-server/digital-muse-protocol-server.js:296-306 | a failed setup reads "❌ Error creating project structure: <message>" |
| LegacyServer.LegacySetupProjectStructure | mcp-server/digital-muse-protocol-server.js:229-307 | the `mkdir` loop and the roadmap write yield the state and the envelope the setup specification gives |
| LegacyServer.LegacySetupSucceedsIff | mcp-server/digital-muse-protocol-server.js:229-307 | setup succeeds exactly when nothing stands in its way, including no file above a directory or the roadmap |
| LegacyServer.LegacySetupLayout | mcp-server/digital-muse-protocol-server.js:231-292 | after success the five directories exist, the roadmap holds the inline roadmap, nothing is lost and no other file changes |
| LegacyServer.LegacySetupFailure | mcp-server/digital-muse-protocol-server.js:296-306 | a failure carries the thrown message; directories created before it stay, and no file changes |
| LegacyServer.LegacySetupIdempotent | mcp-server/digital-muse-protocol-server.js:229-307 | running setup again after a success changes nothing and gives the same answer |
| LegacyServer.TemplateReply | mcp-server/digital-muse-protocol-server.js:360-445 | `json` wraps the template in an object with the single key `template`; any other format gives the raw text |
| LegacyServer.LegacyConfig | mcp-server/digital-muse-protocol-server.js:452-521 | only `simple` and `federated` have a configuration; any other type is `undefined` |
| LegacyServer.LegacySimpleLayout | mcp-server/digital-muse-protocol-server.js:453-470 | one endpoint `story_memory` at `./book/memory/story_memory.json` with the five operations |
| LegacyServer.LegacyFederatedLayout | mcp-server/digital-muse-protocol-server.js:471-514 | five endpoints in order, each at `./book/memory/<name>_graph.json`, in pairwise different files, with the same operations |
| LegacyServer.GraphSuffix | mcp-server/digital-muse-protocol-server.js:471-514 | every federated file ends in `_graph.json` |
| LegacyServer.ResourceStubEmbedsType | mcp-server/digital-muse-protocol-server.js:539-549 | the resource stub embeds the resource type, which reads back out of the text |
| LegacyServer.LegacyDispatchCoversListing | mcp-server/digital-muse-protocol-server.js:37-193 | the switch has a case exactly for the six listed tools, none of them a phase guide |
| LegacyServer.LegacyCallTool | mcp-server/digital-muse-protocol-server.js:170-195 | a tool call returns the envelope and leaves the state that the call specification gives, or throws |
| LegacyServer.LegacyUnknownTool | mcp-server/digital-muse-protocol-server.js:192-193 | a call throws exactly for an unlisted tool, with "Unknown tool: <name>" |
| LegacyServer.LegacyCallKeepsFiles | mcp-server/digital-muse-protocol-server.js:177-190 | every listed tool except setup answers and leaves the file system alone |
| LegacyServer.LegacyValidateStub | mcp-server/digital-muse-protocol-server.js:527-537 | validation answers the fixed text and changes nothing (dispatched at lines 186-187) |
| LegacyServer.LegacyMcpConfigIgnoresPath | mcp-server/digital-muse-protocol-server.js:189-190 | the configuration ignores any project path; an empty type gives the federated configuration |
| LegacyServer.LegacyTemplateFormat | mcp-server/digital-muse-protocol-server.js:356-363 | the character template is wrapped for `json` and raw otherwise, and a missing format is `markdown` (dispatched at lines 177-178) |
| LegacyServer.LegacyResourceOutcomes | mcp-server/digital-muse-protocol-server.js:198-226 | a read succeeds exactly for the seven listed URIs, with the stub for that URI's type; an unknown URI throws "Unknown resource: <uri>" (stubs at lines 539-549) |
| Versions.DefaultsDiffer | server.js:113-183 | a default parameter and `\|\|` differ exactly on an empty argument with a non-empty default (against the earlier server's lines 175-190) |
| Versions.EmptyConfigType | server.js:193-197 | whatever the other arguments, an empty type is refused by the current server with "Invalid MCP config type: " and means `federated` to the earlier one (against the earlier server's line 190) |
| Versions.EmptyProjectPath | server.js:125 | an empty project path names the same places in both versions (against the earlier server's line 175) |
| Versions.UnknownToolContrast | server.js:569-573 | an unknown tool is an error envelope in one version and a thrown error in the other (against the earlier server's lines 192-193) |
| Versions.PhaseGuideOnlyCurrent | server.js:512 | the earlier server has no phase-guide tool and throws for it (against the earlier server's lines 192-193) |
| Versions.SetupVersionsAgree | server.js:113-153 | both setups succeed under the same conditions and create the same entries; they differ only in the roadmap's text (against the earlier server's lines 229-307) |
| Versions.SetupMessagesDiffer | server.js:92-152 | a failed directory is reported with its path under a heading in one version, and as the bare message in the other (against the earlier server's lines 296-306) |
| Versions.CurrentDirMemory | server.js:396 | the current directory's memory directory is the earlier server's fixed `./book/memory/` (against the earlier server's line 477) |
| Versions.FederatedFilesMoved | server.js:388-396 | for a project whose memory directory is the earlier server's, four federated files are where they were and the names agree; the master story graph moved from `master_story_graph.json` to `master_story.json` (against the earlier server's lines 471-514) |
| Versions.LegacyPaths | mcp-server/digital-muse-protocol-server.js:471-514 | the earlier server's five federated paths, in order |
| Versions.SameGraphFiles | server.js:388-396 | the federated file names of the two versions, entry by entry (against the earlier server's lines 471-514) |

## Left out

- The MCP SDK `Server`, the stdio transport, the registration of request handlers and `run`: the model starts at a request's name and arguments and ends at the envelope.
- The `--version`/`--help` command line and `process.exit`: process glue, with no bearing on any answer.
- Resolving the content root through `__dirname`: the content is an abstract store from the `FILE_PATHS` keys to text.
- The `ListTools` and `ListResources` replies beyond their tool names and URIs: descriptions, input schemas, MIME types and resource names are metadata.
- The byte-exact output of `JSON.stringify(..., null, 2)`: configurations and template structures are datatypes (`Documents.Payload`).
- The prose of the default roadmap, the methodology documents and the earlier server's templates: these are opaque constants, and the earlier server's templates are a `TemplateBodies` parameter.
- Files.Join: `path.join` normalisation is not modelled, neither of the base nor of a part. Node turns `p/` and `./p` into `p`, collapses duplicate slashes and resolves `.` and `..` segments; the model keeps the project path as given. So `Project.MemoryPath("p/")` is `p//book/memory`, which is also the text of the "No knowledge graph files found in" and "Failed to create directory" messages, and validating `p/` after setting up `p` reports directories missing that Node would find. The model agrees with Node for a project path already in normal form: no trailing or doubled slash and no `.` or `..` segment.
- Ancestor creation by `mkdir -p`: making `a/b` does not create `a`. A file at an ancestor does block `mkdir` and `writeFile` (`Files.UnderFile`), but the entries need not form a tree: an entry may stand with no directory above it.
- The real text of Node's file-system errors: a file at a directory's path fails with an `EEXIST` message, a file above it with an `ENOTDIR` message, and a directory where the roadmap goes with an `EISDIR` message; each is an abstract constant of `Files`.
- `readdir` order: the model lists entries in creation order, where Node gives the operating system's order.
- Async scheduling: the handlers run one after another.
- Lookups of inherited object properties, such as a phase named `toString`.
- Argument values that are not strings.
- An `arguments` object that is absent altogether: this behaves like an empty map.
- Strings are sequences of code points, not UTF-16 units.
- The catch in the tool router (server.js:575-580) and the "Failed to generate MCP configuration" catch (server.js:199-204): no input reaches them, because every handler catches its own errors and the synthesised configuration always exists (`ToolServer.McpConfigOutcomes`).

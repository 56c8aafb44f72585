/** Project scaffolding and checking in server.js:
    `ToolHandlers.setupProjectStructure` creates the book directories and
    the roadmap, `ToolHandlers.validateProjectConsistency` reports what a
    project lacks. */
module Project {
  import opened Wrappers
  import opened Strings
  import opened Files
  import opened Documents
  import opened FileUtils

  /** The directories `setupProjectStructure` creates, in order. */
  const BookDirs := ["book/memory", "book/characters", "book/world", "book/plots", "book/chapters"]

  const RoadmapFile := "ROADMAP.md"
  const RoadmapTemplateKey := "templates/roadmap_template.md"
  const SetupFailed := "Failed to create project structure"

  /** `getDefaultRoadmapTemplate()`. */
  const DefaultRoadmapTemplate :=
    "# [Project Name] - Digital Muse Protocol\n" +
    "\n" +
    "## Project Parameters\n" +
    "- **Genre**: [Your genre]\n" +
    "- **Target Audience**: [Your target readers]\n" +
    "- **Estimated Length**: [Target word count]\n" +
    "- **Timeline**: [Project completion target]\n" +
    "\n" +
    "## Story Concept\n" +
    "[Brief 2-3 sentence story summary]\n" +
    "\n" +
    "## Success Metrics\n" +
    "- [ ] Compelling, consistent characters\n" +
    "- [ ] Rich, believable world\n" +
    "- [ ] Engaging plot with clear stakes\n" +
    "- [ ] Publication-ready quality\n" +
    "\n" +
    "## Phase Completion Tracking\n" +
    "- [ ] Phase 0: Pre-Planning\n" +
    "- [ ] Phase 1: Initialization  \n" +
    "- [ ] Phase 2: World Building\n" +
    "- [ ] Phase 3: Chapter Generation\n" +
    "- [ ] Phase 4: Quality Assurance\n" +
    "\n" +
    "## Notes\n" +
    "[Project-specific notes and considerations]\n"

  /** Each item behind `prefix`, one line each. */
  function Bullets(items: seq<string>, prefix: string): (r: seq<string>)
    ensures |r| == |items|
    ensures forall k :: 0 <= k < |r| ==> r[k] == prefix + items[k]
  {
    seq(|items|, k requires 0 <= k < |items| => prefix + items[k])
  }

  /** The message a successful setup returns. */
  const SetupReport :=
    "✅ Digital Muse Protocol project structure created successfully!\n\n" +
    "📁 Created directories:\n" + JoinWith(Bullets(BookDirs, "- "), "\n") + "\n\n" +
    "📄 Created files:\n- ROADMAP.md (project master plan)\n\n" +
    "🚀 Next steps:\n" +
    "1. Edit ROADMAP.md with your project details\n" +
    "2. Use 'get_mcp_config' to set up knowledge graph memory\n" +
    "3. Begin with Phase 0 using 'get_phase_guide' with phase '0'"

  /** A text the handler holds itself; it is never empty, so as a fallback
      it is always substituted. */
  type Prose = s: string | s != "" witness "-"

  /** The texts setup takes from the handler rather than from the content:
      the built-in roadmap and the success report. */
  datatype SetupTexts = SetupTexts(roadmap: Prose, report: string)

  /** The texts of `setupProjectStructure` in server.js. */
  const CurrentSetupTexts := SetupTexts(DefaultRoadmapTemplate, SetupReport)

  /** The roadmap text: the stored template, or the built-in one when the
      template cannot be read. */
  function RoadmapText(store: ContentStore, builtIn: Prose): (t: string)
    ensures SafeReadFile(store, RoadmapTemplateKey, Some(Text(builtIn))) == Success(Text(t))
    ensures RoadmapTemplateKey in store.files ==> t == store.files[RoadmapTemplateKey]
    ensures RoadmapTemplateKey !in store.files ==> t == builtIn
  {
    if RoadmapTemplateKey in store.files then store.files[RoadmapTemplateKey] else builtIn
  }

  function RoadmapPath(projectPath: string): string {
    Join(projectPath, RoadmapFile)
  }

  /** What `setupProjectStructure(projectPath)` returns and the file system
      it leaves: the directories in order, stopping at the first that cannot
      be created, then the roadmap; `texts` are the handler's own texts,
      `CurrentSetupTexts` in server.js. */
  function SetupSpec(ns: seq<Node>, failing: map<string, string>, store: ContentStore, texts: SetupTexts, projectPath: string): Outcome
  {
    var run := MkdirEach(ns, failing, projectPath, BookDirs);
    match run.failure
    case Some(f) => Outcome(run.nodes, CreateErrorResponse(SetupFailed, DirectoryFailedMessage(f.path, f.message)))
    case None =>
      match WriteFile(run.nodes, failing, RoadmapPath(projectPath), RoadmapText(store, texts.roadmap))
      case Failure(m) => Outcome(run.nodes, CreateErrorResponse(SetupFailed, m))
      case Success(ns') => Outcome(ns', CreateSuccessResponse(Text(texts.report)))
  }

  /** `ToolHandlers.setupProjectStructure(projectPath)`, with the handler's
      own texts. */
  method SetupProjectStructure(fs: FileSystem, store: ContentStore, texts: SetupTexts, projectPath: string) returns (r: Envelope)
    requires fs.Valid()
    modifies fs
    ensures fs.Valid()
    ensures Outcome(fs.nodes, r) == SetupSpec(old(fs.nodes), fs.failing, store, texts, projectPath)
  {
    var directories := BookDirs;
    var i := 0;
    while i < |directories|
      invariant 0 <= i <= |directories|
      invariant fs.Valid()
      invariant var rest := MkdirEach(fs.nodes, fs.failing, projectPath, directories[i..]);
                MkdirEach(old(fs.nodes), fs.failing, projectPath, directories) == MkdirRun(rest.nodes, rest.done + i, rest.failure)
    {
      var fullPath := Join(projectPath, directories[i]);
      var err := EnsureDirectory(fs, fullPath);
      if err.Some? {
        r := CreateErrorResponse(SetupFailed, err.value);
        return;
      }
      assert directories[i..][1..] == directories[i + 1..];
      i := i + 1;
    }
    var roadmapTemplate := SafeReadFile(store, RoadmapTemplateKey, Some(Text(texts.roadmap)));
    var roadmapPath := Join(projectPath, RoadmapFile);
    var err := fs.WriteTextFile(roadmapPath, roadmapTemplate.value.text);
    if err.Some? {
      r := CreateErrorResponse(SetupFailed, err.value);
    } else {
      r := CreateSuccessResponse(Text(texts.report));
    }
  }

  // ---- Properties of setup ----

  /** The five directories and the roadmap are six different paths. */
  lemma SetupPathsDistinct(projectPath: string)
    ensures forall k :: 0 <= k < |BookDirs| ==> RoadmapPath(projectPath) != Join(projectPath, BookDirs[k])
    ensures forall i, j :: 0 <= i < j < |BookDirs| ==> Join(projectPath, BookDirs[i]) != Join(projectPath, BookDirs[j])
  {
    forall k | 0 <= k < |BookDirs|
      ensures RoadmapPath(projectPath) != Join(projectPath, BookDirs[k])
    {
      assert RoadmapFile[0] != BookDirs[k][0];
      JoinDistinct(projectPath, RoadmapFile, BookDirs[k]);
    }
    forall i, j | 0 <= i < j < |BookDirs|
      ensures Join(projectPath, BookDirs[i]) != Join(projectPath, BookDirs[j])
    {
      assert |BookDirs[i]| != |BookDirs[j]| || BookDirs[i][5] != BookDirs[j][5];
      JoinDistinct(projectPath, BookDirs[i], BookDirs[j]);
    }
  }

  /** Nothing stands in the way of setup: no path it touches fails, no file
      sits where a directory goes or above one, and neither a directory
      where the roadmap goes nor a file above it. */
  predicate Unobstructed(ns: seq<Node>, failing: map<string, string>, projectPath: string) {
    && (forall k :: 0 <= k < |BookDirs| ==> Join(projectPath, BookDirs[k]) !in failing)
    && (forall k :: 0 <= k < |BookDirs| ==> HasPath(ns, Join(projectPath, BookDirs[k])) ==> IsDir(ns, Join(projectPath, BookDirs[k])))
    && (forall k :: 0 <= k < |BookDirs| ==> !UnderFile(ns, Join(projectPath, BookDirs[k])))
    && RoadmapPath(projectPath) !in failing
    && !IsDir(ns, RoadmapPath(projectPath))
    && !UnderFile(ns, RoadmapPath(projectPath))
  }

  /** Setup succeeds exactly when nothing stands in its way. */
  lemma SetupSucceedsIff(ns: seq<Node>, failing: map<string, string>, store: ContentStore, texts: SetupTexts, projectPath: string)
    ensures !SetupSpec(ns, failing, store, texts, projectPath).response.isError <==> Unobstructed(ns, failing, projectPath)
  {
    var run := MkdirEach(ns, failing, projectPath, BookDirs);
    var rp := RoadmapPath(projectPath);
    MkdirEachKeeps(ns, failing, projectPath, BookDirs);
    MkdirEachNoRetype(ns, failing, projectPath, BookDirs);
    MkdirEachOnly(ns, failing, projectPath, BookDirs);
    SetupPathsDistinct(projectPath);
    UnderFileSameFiles(ns, run.nodes, rp);
    if Unobstructed(ns, failing, projectPath) {
      MkdirEachUnobstructed(ns, failing, projectPath, BookDirs);
      if HasPath(run.nodes, rp) {
        assert HasPath(ns, rp);
      }
      assert !IsDir(run.nodes, rp);
    }
    if run.failure.None? {
      forall k | 0 <= k < |BookDirs| && HasPath(ns, Join(projectPath, BookDirs[k]))
        ensures IsDir(ns, Join(projectPath, BookDirs[k]))
      {
        assert IsDir(run.nodes, Join(projectPath, BookDirs[k]));
      }
    }
  }

  /** After the directories went through and the roadmap was written, no
      path of setup lies under a file. */
  lemma SetupNotUnderFile(ns: seq<Node>, failing: map<string, string>, projectPath: string, t: string)
    requires MkdirEach(ns, failing, projectPath, BookDirs).failure.None?
    requires WriteFile(MkdirEach(ns, failing, projectPath, BookDirs).nodes, failing, RoadmapPath(projectPath), t).Success?
    ensures var o := WriteFile(MkdirEach(ns, failing, projectPath, BookDirs).nodes, failing, RoadmapPath(projectPath), t).value;
            && (forall k :: 0 <= k < |BookDirs| ==> !UnderFile(o, Join(projectPath, BookDirs[k])))
            && !UnderFile(o, RoadmapPath(projectPath))
  {
    var run := MkdirEach(ns, failing, projectPath, BookDirs);
    var rp := RoadmapPath(projectPath);
    MkdirEachKeeps(ns, failing, projectPath, BookDirs);
    forall k | 0 <= k < |BookDirs|
      ensures !UnderFile(WriteFile(run.nodes, failing, rp, t).value, Join(projectPath, BookDirs[k]))
    {
      var p := Join(projectPath, BookDirs[k]);
      UnderFileSameFiles(ns, run.nodes, p);
      forall n | 0 <= n < |p| && p[n] == '/'
        ensures p[..n] != rp
      {
        JoinNotPrefix(projectPath, RoadmapFile, BookDirs[k], n);
      }
      WriteNotUnderFile(run.nodes, failing, rp, t, p);
    }
    WriteNotUnderFile(run.nodes, failing, rp, t, rp);
  }

  /** A file where the book directory goes stops setup at its first
      directory with ENOTDIR, as Node's recursive mkdir does. */
  lemma FileAboveBook(store: ContentStore, texts: SetupTexts)
    ensures !Unobstructed([File("p/book", "x")], map[], "p")
    ensures SetupSpec([File("p/book", "x")], map[], store, texts, "p") ==
            Outcome([File("p/book", "x")], CreateErrorResponse(SetupFailed, DirectoryFailedMessage("p/book/memory", NotDirectoryMessage)))
  {
    var ns := [File("p/book", "x")];
    assert Join("p", BookDirs[0]) == "p/book/memory";
    assert "p/book/memory"[..6] == "p/book";
    assert "p/book/memory"[6] == '/';
    assert UnderFile(ns, "p/book/memory");
  }

  /** After a successful setup the five directories exist, the roadmap holds
      the template text, nothing that was there is gone, no other file's
      text changed, and nothing else was created. */
  lemma SetupLayout(ns: seq<Node>, failing: map<string, string>, store: ContentStore, texts: SetupTexts, projectPath: string)
    requires !SetupSpec(ns, failing, store, texts, projectPath).response.isError
    ensures var o := SetupSpec(ns, failing, store, texts, projectPath);
            && o.response == CreateSuccessResponse(Text(texts.report))
            && (forall k :: 0 <= k < |BookDirs| ==> IsDir(o.nodes, Join(projectPath, BookDirs[k])))
            && FileText(o.nodes, RoadmapPath(projectPath)) == Some(RoadmapText(store, texts.roadmap))
            && HasPath(o.nodes, RoadmapPath(projectPath))
            && (forall q :: HasPath(ns, q) ==> HasPath(o.nodes, q))
            && (forall q :: q != RoadmapPath(projectPath) ==> FileText(o.nodes, q) == FileText(ns, q))
            && (forall q :: HasPath(o.nodes, q) ==>
                  HasPath(ns, q) || q == RoadmapPath(projectPath) || exists k :: 0 <= k < |BookDirs| && q == Join(projectPath, BookDirs[k]))
  {
    var run := MkdirEach(ns, failing, projectPath, BookDirs);
    MkdirEachKeeps(ns, failing, projectPath, BookDirs);
    MkdirEachOnly(ns, failing, projectPath, BookDirs);
    WriteFileProperties(run.nodes, failing, RoadmapPath(projectPath), RoadmapText(store, texts.roadmap));
  }

  /** Setup stopped after creating the first `d` directories: at the next
      one, with the message its mkdir threw, or, when all were created, at
      the roadmap, with the message the write threw. */
  predicate StoppedAt(o: Outcome, failing: map<string, string>, projectPath: string, d: nat) {
    && d <= |BookDirs|
    && (forall k :: 0 <= k < d ==> IsDir(o.nodes, Join(projectPath, BookDirs[k])))
    && (d < |BookDirs| ==>
          var p := Join(projectPath, BookDirs[d]);
          o.response == CreateErrorResponse(SetupFailed,
            DirectoryFailedMessage(p, if p in failing then failing[p]
                                      else if UnderFile(o.nodes, p) then NotDirectoryMessage
                                      else FileExistsMessage)))
    && (d == |BookDirs| ==>
          var p := RoadmapPath(projectPath);
          o.response == CreateErrorResponse(SetupFailed, if p in failing then failing[p]
                                                         else if UnderFile(o.nodes, p) then NotDirectoryMessage
                                                         else IsDirectoryMessage))
  }

  /** A failed setup writes no file and removes nothing, and it stopped at
      a directory or at the roadmap. */
  lemma SetupFailure(ns: seq<Node>, failing: map<string, string>, store: ContentStore, texts: SetupTexts, projectPath: string)
    requires SetupSpec(ns, failing, store, texts, projectPath).response.isError
    ensures var o := SetupSpec(ns, failing, store, texts, projectPath);
            && Marked(o.response.payload)
            && (forall q :: FileText(o.nodes, q) == FileText(ns, q))
            && (forall q :: HasPath(ns, q) ==> HasPath(o.nodes, q))
            && exists d: nat :: StoppedAt(o, failing, projectPath, d)
  {
    var o := SetupSpec(ns, failing, store, texts, projectPath);
    var run := MkdirEach(ns, failing, projectPath, BookDirs);
    MkdirEachKeeps(ns, failing, projectPath, BookDirs);
    MkdirEachFailure(ns, failing, projectPath, BookDirs);
    if run.failure.Some? {
      var f := run.failure.value;
      assert o == Outcome(run.nodes, CreateErrorResponse(SetupFailed, DirectoryFailedMessage(f.path, f.message)));
    } else {
      var w := WriteFile(run.nodes, failing, RoadmapPath(projectPath), RoadmapText(store, texts.roadmap));
      assert o == Outcome(run.nodes, CreateErrorResponse(SetupFailed, w.error));
    }
    assert StoppedAt(o, failing, projectPath, run.done);
  }

  /** Running setup again after it succeeded changes nothing and answers
      the same. */
  lemma SetupIdempotent(ns: seq<Node>, failing: map<string, string>, store: ContentStore, texts: SetupTexts, projectPath: string)
    requires !SetupSpec(ns, failing, store, texts, projectPath).response.isError
    ensures var o := SetupSpec(ns, failing, store, texts, projectPath);
            SetupSpec(o.nodes, failing, store, texts, projectPath) == o
  {
    var o := SetupSpec(ns, failing, store, texts, projectPath);
    var run := MkdirEach(ns, failing, projectPath, BookDirs);
    var rp, t := RoadmapPath(projectPath), RoadmapText(store, texts.roadmap);
    MkdirEachKeeps(ns, failing, projectPath, BookDirs);
    WriteFileProperties(run.nodes, failing, rp, t);
    SetupNotUnderFile(ns, failing, projectPath, t);
    MkdirEachPresent(o.nodes, failing, projectPath, BookDirs);
    OverwriteSame(o.nodes, rp, t);
  }

  // ---- Validation ----

  /** The directories validation requires: all of setup's but the chapters. */
  const RequiredDirs := ["book/memory", "book/characters", "book/world", "book/plots"]

  /** The files validation requires. */
  const KeyFiles := [RoadmapFile]

  const NoGraphsWarning := "⚠️ No knowledge graph files found in "
  const MemoryHint := "💡 Set up memory servers using 'get_mcp_config' tool"

  /** `path.join(projectPath, 'book', 'memory')`. */
  function MemoryPath(projectPath: string): string {
    Join(projectPath, "book/memory")
  }

  /** The directories among `dirs` that cannot be accessed, in order. */
  function MissingDirs(ns: seq<Node>, failing: map<string, string>, projectPath: string, dirs: seq<string>): (r: seq<string>)
    ensures |r| <= |dirs|
  {
    if dirs == [] then []
    else
      var d := dirs[|dirs| - 1];
      MissingDirs(ns, failing, projectPath, dirs[..|dirs| - 1])
        + (if Accessible(ns, failing, Join(projectPath, d)) then [] else [d])
  }

  /** `files.filter(f => f.endsWith('.json'))`. */
  function KnowledgeGraphs(names: seq<string>): (r: seq<string>)
    ensures |r| <= |names|
  {
    if names == [] then []
    else
      var f := names[|names| - 1];
      KnowledgeGraphs(names[..|names| - 1]) + (if EndsWith(f, ".json") then [f] else [])
  }

  /** `fs.readdir(memoryPath).catch(() => [])`. */
  function MemoryListing(ns: seq<Node>, failing: map<string, string>, projectPath: string): seq<string> {
    match ReadDir(ns, failing, MemoryPath(projectPath))
    case Success(names) => names
    case Failure(_) => []
  }

  function MissingDirsLine(missing: seq<string>): string {
    "⚠️ Missing directories: " + JoinWith(missing, ", ")
  }

  /** The lines about knowledge graphs: a warning and a hint when there are
      none, otherwise their count and one line per graph. */
  function GraphLines(graphs: seq<string>, memoryPath: string): seq<string> {
    if |graphs| == 0 then [NoGraphsWarning + memoryPath, MemoryHint]
    else ["✅ Found " + NatToString(|graphs|) + " knowledge graph(s):"] + Bullets(graphs, "  - ")
  }

  function KeyFileLine(ns: seq<Node>, failing: map<string, string>, projectPath: string, file: string): string {
    if Accessible(ns, failing, Join(projectPath, file)) then "✅ " + file + " exists"
    else "⚠️ Missing " + file + " - run 'setup_project_structure' first"
  }

  function KeyFileLines(ns: seq<Node>, failing: map<string, string>, projectPath: string, files: seq<string>): (r: seq<string>)
    ensures |r| == |files|
  {
    if files == [] then []
    else KeyFileLines(ns, failing, projectPath, files[..|files| - 1]) + [KeyFileLine(ns, failing, projectPath, files[|files| - 1])]
  }

  /** `validationResults` at the end of `validateProjectConsistency`. */
  function ValidationLines(ns: seq<Node>, failing: map<string, string>, projectPath: string): seq<string> {
    var missing := MissingDirs(ns, failing, projectPath, RequiredDirs);
    (if |missing| > 0 then [MissingDirsLine(missing)] else [])
      + GraphLines(KnowledgeGraphs(MemoryListing(ns, failing, projectPath)), MemoryPath(projectPath))
      + KeyFileLines(ns, failing, projectPath, KeyFiles)
  }

  function ValidationReport(lines: seq<string>): string {
    "🔍 Project Consistency Validation\n\n" + JoinWith(lines, "\n")
      + "\n\n📊 Validation complete. Address any warnings above for optimal setup."
  }

  /** The first loop of `validateProjectConsistency`: `fs.access` on each
      required directory, collecting those it rejects. */
  method CheckDirectories(fs: FileSystem, projectPath: string, requiredDirs: seq<string>) returns (missingDirs: seq<string>)
    ensures missingDirs == MissingDirs(fs.nodes, fs.failing, projectPath, requiredDirs)
  {
    missingDirs := [];
    var i := 0;
    while i < |requiredDirs|
      invariant 0 <= i <= |requiredDirs|
      invariant missingDirs == MissingDirs(fs.nodes, fs.failing, projectPath, requiredDirs[..i])
    {
      assert requiredDirs[..i + 1][..i] == requiredDirs[..i];
      if !Accessible(fs.nodes, fs.failing, Join(projectPath, requiredDirs[i])) {
        missingDirs := missingDirs + [requiredDirs[i]];
      }
      i := i + 1;
    }
    assert requiredDirs[..|requiredDirs|] == requiredDirs;
  }

  /** The last loop of `validateProjectConsistency`: one line per key file. */
  method CheckKeyFiles(fs: FileSystem, projectPath: string, keyFiles: seq<string>) returns (lines: seq<string>)
    ensures lines == KeyFileLines(fs.nodes, fs.failing, projectPath, keyFiles)
  {
    lines := [];
    var j := 0;
    while j < |keyFiles|
      invariant 0 <= j <= |keyFiles|
      invariant lines == KeyFileLines(fs.nodes, fs.failing, projectPath, keyFiles[..j])
    {
      assert keyFiles[..j + 1][..j] == keyFiles[..j];
      lines := lines + [KeyFileLine(fs.nodes, fs.failing, projectPath, keyFiles[j])];
      j := j + 1;
    }
    assert keyFiles[..|keyFiles|] == keyFiles;
  }

  /** `ToolHandlers.validateProjectConsistency(projectPath)`: it never fails,
      since every file-system error it meets is turned into a line. */
  method ValidateProjectConsistency(fs: FileSystem, projectPath: string) returns (r: Envelope)
    ensures r == CreateSuccessResponse(Text(ValidationReport(ValidationLines(fs.nodes, fs.failing, projectPath))))
  {
    var validationResults: seq<string> := [];
    var missingDirs := CheckDirectories(fs, projectPath, RequiredDirs);
    if |missingDirs| > 0 {
      validationResults := validationResults + [MissingDirsLine(missingDirs)];
    }
    assert validationResults == if |missingDirs| > 0 then [MissingDirsLine(missingDirs)] else [];
    var memoryPath := MemoryPath(projectPath);
    var listing := ReadDir(fs.nodes, fs.failing, memoryPath);
    var files := if listing.Success? then listing.value else [];
    assert files == MemoryListing(fs.nodes, fs.failing, projectPath);
    var knowledgeGraphs := KnowledgeGraphs(files);
    validationResults := validationResults + GraphLines(knowledgeGraphs, memoryPath);
    var keyFileLines := CheckKeyFiles(fs, projectPath, KeyFiles);
    validationResults := validationResults + keyFileLines;
    r := CreateSuccessResponse(Text(ValidationReport(validationResults)));
  }

  // ---- Properties of validation ----

  /** A directory is reported missing exactly when it is one of `dirs` and
      cannot be accessed. */
  lemma {:induction false} MissingDirsExact(ns: seq<Node>, failing: map<string, string>, projectPath: string, dirs: seq<string>)
    ensures forall d :: d in MissingDirs(ns, failing, projectPath, dirs) <==> d in dirs && !Accessible(ns, failing, Join(projectPath, d))
  {
    if dirs != [] {
      var init := dirs[..|dirs| - 1];
      MissingDirsExact(ns, failing, projectPath, init);
      assert dirs == init + [dirs[|dirs| - 1]];
    }
  }

  /** The missing-directories line opens the report exactly when a required
      directory cannot be accessed, and it never names the chapters
      directory, which validation does not require. */
  lemma MissingLine(ns: seq<Node>, failing: map<string, string>, projectPath: string)
    ensures "book/chapters" !in MissingDirs(ns, failing, projectPath, RequiredDirs)
    ensures var missing := MissingDirs(ns, failing, projectPath, RequiredDirs);
            && (missing == [] <==> forall k :: 0 <= k < |RequiredDirs| ==> Accessible(ns, failing, Join(projectPath, RequiredDirs[k])))
            && (missing != [] ==> ValidationLines(ns, failing, projectPath)[0] == MissingDirsLine(missing))
  {
    var missing := MissingDirs(ns, failing, projectPath, RequiredDirs);
    MissingDirsExact(ns, failing, projectPath, RequiredDirs);
    forall k | 0 <= k < |RequiredDirs|
      ensures RequiredDirs[k] != "book/chapters"
    {
      assert |RequiredDirs[k]| != 13;
    }
    if missing != [] {
      assert missing[0] in missing;
    }
  }

  /** A name is counted as a knowledge graph exactly when it is listed and
      ends in ".json". */
  lemma {:induction false} KnowledgeGraphsExact(names: seq<string>)
    ensures forall f :: f in KnowledgeGraphs(names) <==> f in names && EndsWith(f, ".json")
  {
    if names != [] {
      var init := names[..|names| - 1];
      KnowledgeGraphsExact(init);
      assert names == init + [names[|names| - 1]];
    }
  }

  /** Filtering keeps names distinct. */
  lemma {:induction false} KnowledgeGraphsDistinct(names: seq<string>)
    requires NoDuplicates(names)
    ensures NoDuplicates(KnowledgeGraphs(names))
  {
    if names != [] {
      var init, f := names[..|names| - 1], names[|names| - 1];
      assert NoDuplicates(init) by {
        forall i, j | 0 <= i < j < |init| ensures init[i] != init[j] {
          assert init[i] == names[i] && init[j] == names[j];
        }
      }
      KnowledgeGraphsDistinct(init);
      KnowledgeGraphsExact(init);
      assert f !in init by {
        forall i | 0 <= i < |init| ensures init[i] != f {
          assert init[i] == names[i];
        }
      }
    }
  }

  /** On a file system whose paths are unique, validation counts each
      knowledge graph once. */
  lemma GraphsDistinct(ns: seq<Node>, failing: map<string, string>, projectPath: string)
    requires PathsUnique(ns)
    ensures NoDuplicates(KnowledgeGraphs(MemoryListing(ns, failing, projectPath)))
  {
    ChildrenDistinct(ns, MemoryPath(projectPath));
    KnowledgeGraphsDistinct(MemoryListing(ns, failing, projectPath));
  }

  /** When the memory directory cannot be listed, no graph is counted and
      the report warns and hints instead. */
  lemma UnlistableMemory(ns: seq<Node>, failing: map<string, string>, projectPath: string)
    requires MemoryPath(projectPath) in failing || !IsDir(ns, MemoryPath(projectPath))
    ensures KnowledgeGraphs(MemoryListing(ns, failing, projectPath)) == []
    ensures GraphLines(KnowledgeGraphs(MemoryListing(ns, failing, projectPath)), MemoryPath(projectPath))
         == [NoGraphsWarning + MemoryPath(projectPath), MemoryHint]
  {
  }

  /** With graphs present the report gives their number, which reads back
      as the count, and then one line per graph. */
  lemma GraphCount(graphs: seq<string>, memoryPath: string)
    requires graphs != []
    ensures var lines := GraphLines(graphs, memoryPath);
            && |lines| == |graphs| + 1
            && lines[0] == "✅ Found " + NatToString(|graphs|) + " knowledge graph(s):"
            && DecimalValue(NatToString(|graphs|)) == |graphs|
            && forall k :: 0 <= k < |graphs| ==> lines[k + 1] == "  - " + graphs[k]
  {
    DecimalRoundTrip(|graphs|);
  }

  /** After a successful setup no required directory is missing. */
  lemma SetupLeavesRequired(ns: seq<Node>, failing: map<string, string>, store: ContentStore, texts: SetupTexts, projectPath: string)
    requires !SetupSpec(ns, failing, store, texts, projectPath).response.isError
    ensures MissingDirs(SetupSpec(ns, failing, store, texts, projectPath).nodes, failing, projectPath, RequiredDirs) == []
  {
    var o := SetupSpec(ns, failing, store, texts, projectPath);
    SetupDirsAccessible(ns, failing, store, texts, projectPath);
    forall k | 0 <= k < |RequiredDirs|
      ensures Accessible(o.nodes, failing, Join(projectPath, RequiredDirs[k]))
    {
      assert RequiredDirs[k] == BookDirs[k];
    }
    NoneMissing(o.nodes, failing, projectPath, RequiredDirs);
  }

  /** The directories a successful setup creates can be accessed. */
  lemma SetupDirsAccessible(ns: seq<Node>, failing: map<string, string>, store: ContentStore, texts: SetupTexts, projectPath: string)
    requires !SetupSpec(ns, failing, store, texts, projectPath).response.isError
    ensures var o := SetupSpec(ns, failing, store, texts, projectPath);
            forall k :: 0 <= k < |BookDirs| ==> Accessible(o.nodes, failing, Join(projectPath, BookDirs[k]))
  {
    var o := SetupSpec(ns, failing, store, texts, projectPath);
    SetupLayout(ns, failing, store, texts, projectPath);
    SetupSucceedsIff(ns, failing, store, texts, projectPath);
    forall k | 0 <= k < |BookDirs|
      ensures HasPath(o.nodes, Join(projectPath, BookDirs[k]))
    {
      DirHasPath(o.nodes, Join(projectPath, BookDirs[k]));
    }
  }

  /** No directory of `dirs` is missing when each can be accessed. */
  lemma {:induction false} NoneMissing(ns: seq<Node>, failing: map<string, string>, projectPath: string, dirs: seq<string>)
    requires forall k :: 0 <= k < |dirs| ==> Accessible(ns, failing, Join(projectPath, dirs[k]))
    ensures MissingDirs(ns, failing, projectPath, dirs) == []
  {
    if dirs != [] {
      NoneMissing(ns, failing, projectPath, dirs[..|dirs| - 1]);
    }
  }

  /** An accessible roadmap is reported as present. */
  lemma RoadmapFound(ns: seq<Node>, failing: map<string, string>, projectPath: string)
    requires Accessible(ns, failing, RoadmapPath(projectPath))
    ensures KeyFileLines(ns, failing, projectPath, KeyFiles) == ["✅ ROADMAP.md exists"]
  {
    assert KeyFiles[..|KeyFiles| - 1] == [];
    assert KeyFileLines(ns, failing, projectPath, KeyFiles) == [KeyFileLine(ns, failing, projectPath, RoadmapFile)];
    assert KeyFileLine(ns, failing, projectPath, RoadmapFile) == "✅ " + RoadmapFile + " exists";
    assert "✅ " + RoadmapFile + " exists" == "✅ ROADMAP.md exists";
  }

  /** After a successful setup the roadmap is found. */
  lemma SetupLeavesRoadmap(ns: seq<Node>, failing: map<string, string>, store: ContentStore, texts: SetupTexts, projectPath: string)
    requires !SetupSpec(ns, failing, store, texts, projectPath).response.isError
    ensures KeyFileLines(SetupSpec(ns, failing, store, texts, projectPath).nodes, failing, projectPath, KeyFiles) == ["✅ ROADMAP.md exists"]
  {
    var o := SetupSpec(ns, failing, store, texts, projectPath);
    SetupLayout(ns, failing, store, texts, projectPath);
    SetupSucceedsIff(ns, failing, store, texts, projectPath);
    RoadmapFound(o.nodes, failing, projectPath);
  }

  /** A project with every required directory, a listable memory directory
      and the roadmap validates to the graph lines and the roadmap line. */
  lemma CompleteProject(ns: seq<Node>, failing: map<string, string>, projectPath: string)
    requires MissingDirs(ns, failing, projectPath, RequiredDirs) == []
    requires IsDir(ns, MemoryPath(projectPath)) && MemoryPath(projectPath) !in failing
    requires Accessible(ns, failing, RoadmapPath(projectPath))
    ensures MemoryListing(ns, failing, projectPath) == Children(ns, MemoryPath(projectPath))
    ensures ValidationLines(ns, failing, projectPath)
         == GraphLines(KnowledgeGraphs(Children(ns, MemoryPath(projectPath))), MemoryPath(projectPath))
            + ["✅ ROADMAP.md exists"]
  {
    MemoryListed(ns, failing, projectPath);
    NoMissingLine(ns, failing, projectPath);
    RoadmapFound(ns, failing, projectPath);
  }

  /** A listable memory directory is listed in full. */
  lemma MemoryListed(ns: seq<Node>, failing: map<string, string>, projectPath: string)
    requires IsDir(ns, MemoryPath(projectPath)) && MemoryPath(projectPath) !in failing
    ensures MemoryListing(ns, failing, projectPath) == Children(ns, MemoryPath(projectPath))
  {
  }

  /** Without a missing directory, the report opens with the graph lines. */
  lemma NoMissingLine(ns: seq<Node>, failing: map<string, string>, projectPath: string)
    requires MissingDirs(ns, failing, projectPath, RequiredDirs) == []
    ensures ValidationLines(ns, failing, projectPath)
         == GraphLines(KnowledgeGraphs(MemoryListing(ns, failing, projectPath)), MemoryPath(projectPath))
            + KeyFileLines(ns, failing, projectPath, KeyFiles)
  {
    var g := GraphLines(KnowledgeGraphs(MemoryListing(ns, failing, projectPath)), MemoryPath(projectPath));
    var kf := KeyFileLines(ns, failing, projectPath, KeyFiles);
    assert ValidationLines(ns, failing, projectPath) == [] + g + kf;
    assert [] + g == g;
  }

  /** After a successful setup, validation finds every required directory
      and the roadmap, and lists the memory directory. */
  lemma SetupThenValidate(ns: seq<Node>, failing: map<string, string>, store: ContentStore, texts: SetupTexts, projectPath: string)
    requires !SetupSpec(ns, failing, store, texts, projectPath).response.isError
    ensures var o := SetupSpec(ns, failing, store, texts, projectPath);
            && MemoryListing(o.nodes, failing, projectPath) == Children(o.nodes, MemoryPath(projectPath))
            && ValidationLines(o.nodes, failing, projectPath)
               == GraphLines(KnowledgeGraphs(Children(o.nodes, MemoryPath(projectPath))), MemoryPath(projectPath))
                  + ["✅ ROADMAP.md exists"]
  {
    var o := SetupSpec(ns, failing, store, texts, projectPath);
    SetupLeavesRequired(ns, failing, store, texts, projectPath);
    SetupLayout(ns, failing, store, texts, projectPath);
    SetupSucceedsIff(ns, failing, store, texts, projectPath);
    assert MemoryPath(projectPath) == Join(projectPath, BookDirs[0]);
    CompleteProject(o.nodes, failing, projectPath);
  }

  /** Right after setting up in an empty directory, nothing lies inside the
      memory directory. */
  lemma FreshMemoryEmpty(store: ContentStore, texts: SetupTexts, projectPath: string)
    ensures Children(SetupSpec([], map[], store, texts, projectPath).nodes, MemoryPath(projectPath)) == []
  {
    var o := SetupSpec([], map[], store, texts, projectPath);
    SetupSucceedsIff([], map[], store, texts, projectPath);
    SetupLayout([], map[], store, texts, projectPath);
    var m := MemoryPath(projectPath);
    forall i | 0 <= i < |o.nodes|
      ensures ChildName(m, o.nodes[i].path) == None
    {
      assert HasPath(o.nodes, o.nodes[i].path);
      NoMemoryChild(projectPath, o.nodes[i].path);
    }
    ChildrenNone(o.nodes, m);
  }

  /** Setting up a project in an empty directory succeeds, and validating it
      then finds everything but knowledge graphs. */
  lemma FreshProject(store: ContentStore, texts: SetupTexts, projectPath: string)
    ensures var o := SetupSpec([], map[], store, texts, projectPath);
            && !o.response.isError
            && ValidationLines(o.nodes, map[], projectPath)
               == [NoGraphsWarning + MemoryPath(projectPath), MemoryHint, "✅ ROADMAP.md exists"]
  {
    SetupSucceedsIff([], map[], store, texts, projectPath);
    SetupThenValidate([], map[], store, texts, projectPath);
    FreshMemoryEmpty(store, texts, projectPath);
  }

  /** Neither a setup directory nor the roadmap lies inside the memory
      directory. */
  lemma NoMemoryChild(projectPath: string, q: string)
    requires q == RoadmapPath(projectPath) || exists k :: 0 <= k < |BookDirs| && q == Join(projectPath, BookDirs[k])
    ensures ChildName(MemoryPath(projectPath), q) == None
  {
    var rel :| rel in BookDirs + [RoadmapFile] && q == Join(projectPath, rel);
    ChildNameJoin(projectPath, "book/memory", rel);
    var pre := "book/memory" + "/";
    assert |pre| == 12 && pre[5] == 'm';
    if |rel| > 12 {
      assert rel[5] == 'c';
      assert rel[..12][5] != pre[5];
    }
  }
}

/** What QubCreateProjectRun.run promises, proved about its specification
    CreateProjectRun.Scaffold: the exit code, the folders and files it
    leaves behind, and what reaches the output stream. */
module CreateProjectRunProperties {
  import opened FileSystems
  import opened Streams
  import opened RunMessages
  import opened CreateProjectRun

  /** A file that exists keeps its contents; a missing one gets `contents`. */
  function PutIfAbsent(files: map<Path, string>, p: Path, contents: string): (r: map<Path, string>)
    ensures r.Keys == files.Keys + {p}
    ensures forall q | q in files :: r[q] == files[q]
    ensures p !in files ==> r[p] == contents
  {
    if p in files then files else files[p := contents]
  }

  /** README.md, LICENSE and .gitignore added where missing. */
  function MissingStarterFiles(files: map<Path, string>, folder: Path, renderers: Renderers): map<Path, string>
  {
    var project := Name(folder);
    var withReadme := PutIfAbsent(files, folder + ["README.md"], ReadmeText(renderers, project));
    var withLicense := PutIfAbsent(withReadme, folder + ["LICENSE"], renderers.licenseText);
    PutIfAbsent(withLicense, folder + [".gitignore"], GitIgnoreText())
  }

  /** The files after the creation branch: project.json is (re)written and
      the other starter files are added where missing. */
  function StarterFiles(files: map<Path, string>, folder: Path, renderers: Renderers): map<Path, string>
  {
    var json := renderers.projectJson(Name(folder), Publisher, Version);
    MissingStarterFiles(files[folder + [ProjectJsonName] := json], folder, renderers)
  }

  /** The six entries a Qub project starts with. */
  function StarterEntries(folder: Path): set<Path>
  {
    { folder + [ProjectJsonName], folder + ["README.md"], folder + ["LICENSE"],
      folder + [".gitignore"], folder + ["sources"], folder + ["tests"] }
  }

  /** A stretch of writes that all go to the verbose stream. */
  predicate Quiet(t: seq<Message>)
  {
    forall i | 0 <= i < |t| :: t[i].Verbose?
  }

  /** `u` is `t` followed by verbose writes only. */
  predicate QuietlyExtends(t: seq<Message>, u: seq<Message>)
  {
    t <= u && Quiet(u[|t|..])
  }

  /** The output stream receives nothing from verbose writes. */
  lemma {:induction false} QuietWritesNoOutput(t: seq<Message>)
    requires Quiet(t)
    ensures Received(t, true, false) == ""
    decreases |t|
  {
    if t != [] {
      QuietWritesNoOutput(t[..|t| - 1]);
    }
  }

  lemma QuietlyExtendsTransitive(t: seq<Message>, u: seq<Message>, v: seq<Message>)
    requires QuietlyExtends(t, u) && QuietlyExtends(u, v)
    ensures QuietlyExtends(t, v)
  {
    forall i | 0 <= i < |v[|t|..]| ensures v[|t|..][i].Verbose? {
      if |t| + i < |u| {
        assert v[|t|..][i] == u[|t|..][i];
      } else {
        assert v[|t|..][i] == v[|u|..][|t| + i - |u|];
      }
    }
  }

  /** A quiet run that only announces its work on the output stream and
      then reports it done sends exactly those two texts to the output. */
  lemma AnnouncedOutput(before: seq<Message>, announcement: string, work: seq<Message>, done: string)
    requires Quiet(before) && QuietlyExtends(before + [Output(announcement)], work)
    ensures Received(work + [Output(done)], true, false) == announcement + done
  {
    var announced := before + [Output(announcement)];
    assert work == announced + work[|announced|..];
    QuietWritesNoOutput(before);
    QuietWritesNoOutput(work[|announced|..]);
    ReceivedSnoc(before, Output(announcement), true, false);
    ReceivedAppend(announced, work[|announced|..], true, false);
    ReceivedSnoc(work, Output(done), true, false);
  }

  /** A quiet run that ends with one output write sends only that text. */
  lemma SingleOutput(before: seq<Message>, text: string)
    requires Quiet(before)
    ensures Received(before + [Output(text)], true, false) == text
  {
    QuietWritesNoOutput(before);
    ReceivedSnoc(before, Output(text), true, false);
  }

  lemma GitIgnoreContents()
    ensures GitIgnoreText() == ".idea\nout\noutputs\ntarget"
  {
    assert Join('\n', ["target"]) == "target";
    assert Join('\n', ["outputs", "target"]) == "outputs\ntarget";
    assert Join('\n', ["out", "outputs", "target"]) == "out\noutputs\ntarget";
  }

  /** The project folder check leaves the folder in place, touches no file
      and writes only verbose lines. */
  lemma LocateEffect(before: FsState, folder: Path)
    requires before.Valid()
    ensures var located := LocateProjectFolder(before, folder);
      && located.state.Valid()
      && located.state.folders == before.folders + Prefixes(folder)
      && located.state.files == before.files
      && Quiet(located.transcript)
  {
    if folder in before.folders {
      AncestorsPresent(before, folder);
    } else {
      WithFolderValid(before, folder);
    }
  }

  /** Each of the README.md, LICENSE and .gitignore steps puts its file in
      place only when it is missing. */
  lemma EnsureFileEffect(p: Progress, folder: Path, name: string, contents: string)
    requires p.state.Valid() && folder in p.state.folders
    ensures var q := p.EnsureFile(folder, name, contents);
      && q.state.Valid()
      && q.state.folders == p.state.folders
      && q.state.files == PutIfAbsent(p.state.files, folder + [name], contents)
  {
    var path := folder + [name];
    if path !in p.state.files {
      assert Parent(path) == folder;
      AncestorsPresent(p.state, folder);
      WithFileValid(p.state, path, contents);
    }
  }

  /** The sources and tests steps: afterwards the folder exists and no file
      changes. */
  lemma EnsureFolderEffect(p: Progress, folder: Path, name: string)
    requires p.state.Valid() && folder in p.state.folders
    ensures var q := p.EnsureFolder(folder, name);
      && q.state.Valid()
      && q.state.folders == p.state.folders + {folder + [name]}
      && q.state.files == p.state.files
  {
    var path := folder + [name];
    if path !in p.state.folders {
      PrefixesOfChild(folder, name);
      AncestorsPresent(p.state, folder);
      WithFolderValid(p.state, path);
    }
  }

  lemma StarterFilesEffect(p: Progress, folder: Path, renderers: Renderers)
    requires p.state.Valid() && folder in p.state.folders
    ensures var q := p.EnsureStarterFiles(folder, renderers);
      && q.state.Valid()
      && q.state.folders == p.state.folders
      && q.state.files == MissingStarterFiles(p.state.files, folder, renderers)
  {
    var project := Name(folder);
    var p1 := p.EnsureFile(folder, "README.md", ReadmeText(renderers, project));
    EnsureFileEffect(p, folder, "README.md", ReadmeText(renderers, project));
    var p2 := p1.EnsureFile(folder, "LICENSE", renderers.licenseText);
    EnsureFileEffect(p1, folder, "LICENSE", renderers.licenseText);
    EnsureFileEffect(p2, folder, ".gitignore", GitIgnoreText());
  }

  lemma StarterFoldersEffect(p: Progress, folder: Path)
    requires p.state.Valid() && folder in p.state.folders
    ensures var q := p.EnsureStarterFolders(folder);
      && q.state.Valid()
      && q.state.folders == p.state.folders + {folder + ["sources"], folder + ["tests"]}
      && q.state.files == p.state.files
  {
    EnsureFolderEffect(p, folder, "sources");
    EnsureFolderEffect(p.EnsureFolder(folder, "sources"), folder, "tests");
  }

  /** The creation branch leaves a well-formed file system holding
      project.json, the missing starter files and the sources and tests
      folders. */
  lemma CreateArtifactsEffect(located: Progress, folder: Path, renderers: Renderers)
    requires located.state.Valid() && folder in located.state.folders
    ensures var done := CreateArtifacts(located, folder, renderers);
      && done.state.Valid()
      && done.state.folders == located.state.folders + {folder + ["sources"], folder + ["tests"]}
      && done.state.files == StarterFiles(located.state.files, folder, renderers)
  {
    var json := folder + [ProjectJsonName];
    var contents := renderers.projectJson(Name(folder), Publisher, Version);
    var p1 := located
      .WriteOutput(CreatingProject(folder))
      .WriteVerbose(BlankLine())
      .WriteVerbose(CreatingFile(folder, ProjectJsonName))
      .SetFile(json, contents)
      .WriteVerbose(Done());
    assert Parent(json) == folder;
    AncestorsPresent(located.state, folder);
    WithFileValid(located.state, json, contents);
    StarterFilesEffect(p1, folder, renderers);
    StarterFoldersEffect(p1.EnsureStarterFiles(folder, renderers), folder);
  }

  lemma EnsureFileQuiet(p: Progress, folder: Path, name: string, contents: string)
    ensures QuietlyExtends(p.transcript, p.EnsureFile(folder, name, contents).transcript)
  {
    var t := p.transcript;
    if folder + [name] in p.state.files {
      assert p.EnsureFile(folder, name, contents).transcript[|t|..] == [Verbose(FileAlreadyExists(folder, name))];
    } else {
      assert p.EnsureFile(folder, name, contents).transcript[|t|..] == [Verbose(CreatingFile(folder, name)), Verbose(Done())];
    }
  }

  lemma EnsureFolderQuiet(p: Progress, folder: Path, name: string)
    ensures QuietlyExtends(p.transcript, p.EnsureFolder(folder, name).transcript)
  {
    var t := p.transcript;
    if folder + [name] in p.state.folders {
      assert p.EnsureFolder(folder, name).transcript[|t|..] == [Verbose(SubfolderAlreadyExists(folder, name))];
    } else {
      assert p.EnsureFolder(folder, name).transcript[|t|..] == [Verbose(CreatingSubfolder(folder, name)), Verbose(Done())];
    }
  }

  /** Every step after the announcement writes only verbose lines. */
  lemma StarterEntriesQuiet(p: Progress, folder: Path, renderers: Renderers)
    ensures QuietlyExtends(p.transcript, p.EnsureStarterFiles(folder, renderers).EnsureStarterFolders(folder).transcript)
  {
    var project := Name(folder);
    var p1 := p.EnsureFile(folder, "README.md", ReadmeText(renderers, project));
    EnsureFileQuiet(p, folder, "README.md", ReadmeText(renderers, project));
    var p2 := p1.EnsureFile(folder, "LICENSE", renderers.licenseText);
    EnsureFileQuiet(p1, folder, "LICENSE", renderers.licenseText);
    var p3 := p2.EnsureFile(folder, ".gitignore", GitIgnoreText());
    EnsureFileQuiet(p2, folder, ".gitignore", GitIgnoreText());
    var p4 := p3.EnsureFolder(folder, "sources");
    EnsureFolderQuiet(p3, folder, "sources");
    var p5 := p4.EnsureFolder(folder, "tests");
    EnsureFolderQuiet(p4, folder, "tests");
    QuietlyExtendsTransitive(p.transcript, p1.transcript, p2.transcript);
    QuietlyExtendsTransitive(p.transcript, p2.transcript, p3.transcript);
    QuietlyExtendsTransitive(p.transcript, p3.transcript, p4.transcript);
    QuietlyExtendsTransitive(p.transcript, p4.transcript, p5.transcript);
  }

  /** Writing project.json adds only verbose lines. */
  lemma ProjectJsonQuiet(p: Progress, folder: Path, renderers: Renderers)
    ensures QuietlyExtends(p.transcript, p
      .WriteVerbose(BlankLine())
      .WriteVerbose(CreatingFile(folder, ProjectJsonName))
      .SetFile(folder + [ProjectJsonName], renderers.projectJson(Name(folder), Publisher, Version))
      .WriteVerbose(Done()).transcript)
  {
    var q := p
      .WriteVerbose(BlankLine())
      .WriteVerbose(CreatingFile(folder, ProjectJsonName))
      .SetFile(folder + [ProjectJsonName], renderers.projectJson(Name(folder), Publisher, Version))
      .WriteVerbose(Done());
    assert q.transcript[|p.transcript|..] == [Verbose(BlankLine()), Verbose(CreatingFile(folder, ProjectJsonName)), Verbose(Done())];
  }

  /** The creation branch announces itself and its end on the output
      stream and writes nothing else there. */
  lemma CreateArtifactsOutput(located: Progress, folder: Path, renderers: Renderers)
    requires Quiet(located.transcript)
    ensures Received(CreateArtifacts(located, folder, renderers).transcript, true, false)
         == CreatingProject(folder) + Done()
  {
    var p0 := located.WriteOutput(CreatingProject(folder));
    var p1 := p0
      .WriteVerbose(BlankLine())
      .WriteVerbose(CreatingFile(folder, ProjectJsonName))
      .SetFile(folder + [ProjectJsonName], renderers.projectJson(Name(folder), Publisher, Version))
      .WriteVerbose(Done());
    ProjectJsonQuiet(p0, folder, renderers);
    var p2 := p1.EnsureStarterFiles(folder, renderers).EnsureStarterFolders(folder);
    StarterEntriesQuiet(p1, folder, renderers);
    QuietlyExtendsTransitive(p0.transcript, p1.transcript, p2.transcript);
    AnnouncedOutput(located.transcript, CreatingProject(folder), p2.transcript, Done());
  }

  /** The lines announcing that project.json is written. */
  function ProjectJsonLines(folder: Path): seq<Message>
  {
    [ Output(CreatingProject(folder)),
      Verbose(BlankLine()),
      Verbose(CreatingFile(folder, ProjectJsonName)), Verbose(Done()) ]
  }

  /** The lines announcing that the three starter files are created. */
  function StarterFileLines(folder: Path): seq<Message>
  {
    [ Verbose(CreatingFile(folder, "README.md")), Verbose(Done()),
      Verbose(CreatingFile(folder, "LICENSE")), Verbose(Done()),
      Verbose(CreatingFile(folder, ".gitignore")), Verbose(Done()) ]
  }

  /** The lines announcing that the two starter folders are created. */
  function StarterFolderLines(folder: Path): seq<Message>
  {
    [ Verbose(CreatingSubfolder(folder, "sources")), Verbose(Done()),
      Verbose(CreatingSubfolder(folder, "tests")), Verbose(Done()) ]
  }

  /** What one starter file step writes: the "already exists" line when the
      file is in `files`, and otherwise the announcement and " Done.", never
      both. */
  function FileStepLines(files: map<Path, string>, folder: Path, name: string): seq<Message>
  {
    if folder + [name] in files then [Verbose(FileAlreadyExists(folder, name))]
    else [Verbose(CreatingFile(folder, name)), Verbose(Done())]
  }

  /** What one starter folder step writes, likewise. */
  function FolderStepLines(folders: set<Path>, folder: Path, name: string): seq<Message>
  {
    if folder + [name] in folders then [Verbose(SubfolderAlreadyExists(folder, name))]
    else [Verbose(CreatingSubfolder(folder, name)), Verbose(Done())]
  }

  /** The transcript `t` followed by the lines of a creation branch that
      starts from `files` and `folders`: project.json, then one step for
      each starter entry in the fixed order, then the end of the output
      line. */
  function WithCreation(t: seq<Message>, folder: Path, files: map<Path, string>, folders: set<Path>): seq<Message>
  {
    t + ProjectJsonLines(folder)
      + FileStepLines(files, folder, "README.md")
      + FileStepLines(files, folder, "LICENSE")
      + FileStepLines(files, folder, ".gitignore")
      + FolderStepLines(folders, folder, "sources")
      + FolderStepLines(folders, folder, "tests")
      + [Output(Done())]
  }

  /** The transcript `t` followed by the lines of a creation branch that
      finds none of the starter entries. */
  function WithFreshCreation(t: seq<Message>, folder: Path): seq<Message>
  {
    t + ProjectJsonLines(folder) + StarterFileLines(folder) + StarterFolderLines(folder) + [Output(Done())]
  }

  /** Three missing starter files are each announced and created. */
  lemma FreshStarterFiles(p: Progress, folder: Path, renderers: Renderers)
    requires folder + ["README.md"] !in p.state.files
    requires folder + ["LICENSE"] !in p.state.files
    requires folder + [".gitignore"] !in p.state.files
    ensures var q := p.EnsureStarterFiles(folder, renderers);
      && q.state.folders == p.state.folders + Prefixes(folder)
      && q.transcript == p.transcript + StarterFileLines(folder)
  {
    var n := |folder|;
    var readme, license := folder + ["README.md"], folder + ["LICENSE"];
    assert readme[n] == "README.md" && license[n] == "LICENSE" && (folder + [".gitignore"])[n] == ".gitignore";
    assert Parent(readme) == folder && Parent(license) == folder && Parent(folder + [".gitignore"]) == folder;
    var p1 := p.EnsureFile(folder, "README.md", ReadmeText(renderers, Name(folder)));
    assert p1.state.files.Keys == p.state.files.Keys + {readme};
    var p2 := p1.EnsureFile(folder, "LICENSE", renderers.licenseText);
    assert p2.state.files.Keys == p1.state.files.Keys + {license};
  }

  /** Two missing starter folders are each announced and created. */
  lemma FreshStarterFolders(p: Progress, folder: Path)
    requires folder + ["sources"] !in p.state.folders
    requires folder + ["tests"] !in p.state.folders
    ensures p.EnsureStarterFolders(folder).transcript == p.transcript + StarterFolderLines(folder)
  {
    var n := |folder|;
    assert (folder + ["sources"])[n] == "sources" && (folder + ["tests"])[n] == "tests";
    PrefixesOfChild(folder, "sources");
    assert folder + ["tests"] !in Prefixes(folder);
    var p1 := p.EnsureFolder(folder, "sources");
    assert p1.state.folders == p.state.folders + Prefixes(folder) + {folder + ["sources"]};
  }

  /** The project.json step: announced, written, and finished. */
  lemma ProjectJsonStep(located: Progress, folder: Path, renderers: Renderers)
    ensures var p := located
      .WriteOutput(CreatingProject(folder))
      .WriteVerbose(BlankLine())
      .WriteVerbose(CreatingFile(folder, ProjectJsonName))
      .SetFile(folder + [ProjectJsonName], renderers.projectJson(Name(folder), Publisher, Version))
      .WriteVerbose(Done());
      && p.transcript == located.transcript + ProjectJsonLines(folder)
      && p.state.files.Keys == located.state.files.Keys + {folder + [ProjectJsonName]}
      && p.state.folders == located.state.folders + Prefixes(folder)
  {
    assert Parent(folder + [ProjectJsonName]) == folder;
  }

  /** One starter file step writes its own lines, adds only its file and
      at most the folders above it. */
  lemma FileStep(p: Progress, folder: Path, name: string, contents: string)
    ensures var q := p.EnsureFile(folder, name, contents);
      && q.transcript == p.transcript + FileStepLines(p.state.files, folder, name)
      && q.state.files.Keys == p.state.files.Keys + {folder + [name]}
      && p.state.folders <= q.state.folders <= p.state.folders + Prefixes(folder)
  {
    assert Parent(folder + [name]) == folder;
  }

  /** The three starter file steps each write their own lines, decided by
      the files as they were before the first of them. */
  lemma StarterFileSteps(p: Progress, folder: Path, renderers: Renderers)
    ensures var q := p.EnsureStarterFiles(folder, renderers);
      && p.state.folders <= q.state.folders <= p.state.folders + Prefixes(folder)
      && q.transcript == p.transcript
           + FileStepLines(p.state.files, folder, "README.md")
           + FileStepLines(p.state.files, folder, "LICENSE")
           + FileStepLines(p.state.files, folder, ".gitignore")
  {
    var n := |folder|;
    var readme, license := folder + ["README.md"], folder + ["LICENSE"];
    assert readme[n] == "README.md" && license[n] == "LICENSE" && (folder + [".gitignore"])[n] == ".gitignore";
    var p1 := p.EnsureFile(folder, "README.md", ReadmeText(renderers, Name(folder)));
    FileStep(p, folder, "README.md", ReadmeText(renderers, Name(folder)));
    var p2 := p1.EnsureFile(folder, "LICENSE", renderers.licenseText);
    FileStep(p1, folder, "LICENSE", renderers.licenseText);
    FileStep(p2, folder, ".gitignore", GitIgnoreText());
    assert FileStepLines(p1.state.files, folder, "LICENSE") == FileStepLines(p.state.files, folder, "LICENSE");
    assert FileStepLines(p2.state.files, folder, ".gitignore") == FileStepLines(p.state.files, folder, ".gitignore");
  }

  /** The two starter folder steps each write their own lines, decided by
      the folders as they were before the first of them. */
  lemma StarterFolderSteps(p: Progress, folder: Path)
    ensures p.EnsureStarterFolders(folder).transcript == p.transcript
           + FolderStepLines(p.state.folders, folder, "sources")
           + FolderStepLines(p.state.folders, folder, "tests")
  {
    var n := |folder|;
    assert (folder + ["sources"])[n] == "sources" && (folder + ["tests"])[n] == "tests";
    PrefixesOfChild(folder, "sources");
    ChildNotPrefix(folder, "tests");
    var p1 := p.EnsureFolder(folder, "sources");
    assert p.state.folders <= p1.state.folders <= p.state.folders + Prefixes(folder) + {folder + ["sources"]};
  }

  /** Whatever starter entries are in place, the creation branch writes
      project.json and then, for each starter entry in the fixed order,
      either its "already exists" line or its creation lines. */
  lemma CreationTranscript(located: Progress, folder: Path, renderers: Renderers)
    ensures CreateArtifacts(located, folder, renderers).transcript
         == WithCreation(located.transcript, folder, located.state.files, located.state.folders)
  {
    var n := |folder|;
    var json := folder + [ProjectJsonName];
    assert json[n] == ProjectJsonName;
    assert (folder + ["README.md"])[n] == "README.md" && (folder + ["LICENSE"])[n] == "LICENSE";
    assert (folder + [".gitignore"])[n] == ".gitignore";
    ProjectJsonStep(located, folder, renderers);
    var p1 := located
      .WriteOutput(CreatingProject(folder))
      .WriteVerbose(BlankLine())
      .WriteVerbose(CreatingFile(folder, ProjectJsonName))
      .SetFile(json, renderers.projectJson(Name(folder), Publisher, Version))
      .WriteVerbose(Done());
    StarterFileSteps(p1, folder, renderers);
    var p2 := p1.EnsureStarterFiles(folder, renderers);
    ChildNotPrefix(folder, "sources");
    ChildNotPrefix(folder, "tests");
    StarterFolderSteps(p2, folder);
    assert FileStepLines(p1.state.files, folder, "README.md") == FileStepLines(located.state.files, folder, "README.md");
    assert FileStepLines(p1.state.files, folder, "LICENSE") == FileStepLines(located.state.files, folder, "LICENSE");
    assert FileStepLines(p1.state.files, folder, ".gitignore") == FileStepLines(located.state.files, folder, ".gitignore");
    assert FolderStepLines(p2.state.folders, folder, "sources") == FolderStepLines(located.state.folders, folder, "sources");
    assert FolderStepLines(p2.state.folders, folder, "tests") == FolderStepLines(located.state.folders, folder, "tests");
  }

  /** With none of the starter entries in place, the creation branch
      announces and creates each of them, in the fixed order. */
  lemma FreshCreationTranscript(located: Progress, folder: Path, renderers: Renderers)
    requires folder + ["README.md"] !in located.state.files
    requires folder + ["LICENSE"] !in located.state.files
    requires folder + [".gitignore"] !in located.state.files
    requires folder + ["sources"] !in located.state.folders
    requires folder + ["tests"] !in located.state.folders
    ensures CreateArtifacts(located, folder, renderers).transcript == WithFreshCreation(located.transcript, folder)
  {
    var n := |folder|;
    var json := folder + [ProjectJsonName];
    assert json[n] == ProjectJsonName;
    assert (folder + ["README.md"])[n] == "README.md" && (folder + ["LICENSE"])[n] == "LICENSE";
    assert (folder + [".gitignore"])[n] == ".gitignore";
    ProjectJsonStep(located, folder, renderers);
    var p1 := located
      .WriteOutput(CreatingProject(folder))
      .WriteVerbose(BlankLine())
      .WriteVerbose(CreatingFile(folder, ProjectJsonName))
      .SetFile(json, renderers.projectJson(Name(folder), Publisher, Version))
      .WriteVerbose(Done());
    FreshStarterFiles(p1, folder, renderers);
    var p2 := p1.EnsureStarterFiles(folder, renderers);
    ChildNotPrefix(folder, "sources");
    ChildNotPrefix(folder, "tests");
    FreshStarterFolders(p2, folder);
  }

  /** The project folder check writes three verbose lines when the folder
      exists and four when it has to be created. */
  lemma LocateLines(before: FsState, folder: Path)
    ensures LocateProjectFolder(before, folder).transcript
         == if folder in before.folders then
              [Verbose(CheckingProjectFolder(folder)), Verbose(Done()),
               Verbose(ProjectFolderAlreadyExists(folder))]
            else
              [Verbose(CheckingProjectFolder(folder)), Verbose(Done()),
               Verbose(CreatingProjectFolder(folder)), Verbose(Done())]
  {
  }

  /** No child of an empty folder exists, even once the folders above it
      are created. */
  lemma EmptyFolderChild(before: FsState, folder: Path, name: string)
    requires before.Entries(folder) == {}
    ensures folder + [name] !in before.files
    ensures folder + [name] !in before.folders + Prefixes(folder)
  {
    var child := folder + [name];
    assert child[..|folder|] == folder && |folder| < |child|;
    assert child !in before.Entries(folder);
    ChildNotPrefix(folder, name);
  }

  /** In an empty or missing project folder the run reports the folder
      check, then announces and creates every starter entry in order. */
  lemma EmptyFolderTranscript(before: FsState, folder: Path, renderers: Renderers)
    requires before.Valid() && before.Entries(folder) == {}
    ensures Scaffold(before, folder, renderers).transcript
         == WithFreshCreation(LocateProjectFolder(before, folder).transcript, folder)
  {
    LocateEffect(before, folder);
    EmptyFolderChild(before, folder, ProjectJsonName);
    EmptyFolderChild(before, folder, "README.md");
    EmptyFolderChild(before, folder, "LICENSE");
    EmptyFolderChild(before, folder, ".gitignore");
    EmptyFolderChild(before, folder, "sources");
    EmptyFolderChild(before, folder, "tests");
    FreshCreationTranscript(LocateProjectFolder(before, folder), folder, renderers);
  }

  /** run's exit code: -1 exactly when project.json already exists in the
      project folder, 0 otherwise. */
  lemma ExitCode(before: FsState, folder: Path, renderers: Renderers)
    ensures var outcome := Scaffold(before, folder, renderers);
      && (outcome.exitCode == -1 <==> folder + [ProjectJsonName] in before.files)
      && (outcome.exitCode == 0 <==> folder + [ProjectJsonName] !in before.files)
  {
  }

  /** With project.json present, run changes nothing, reports the project
      on the output stream and stops after three verbose lines. */
  lemma ExistingProjectUnchanged(before: FsState, folder: Path, renderers: Renderers)
    requires before.Valid() && folder + [ProjectJsonName] in before.files
    ensures var outcome := Scaffold(before, folder, renderers);
      && outcome.exitCode == -1
      && outcome.after == before
      && outcome.transcript == [
           Verbose(CheckingProjectFolder(folder)),
           Verbose(Done()),
           Verbose(ProjectFolderAlreadyExists(folder)),
           Verbose(FileAlreadyExists(folder, ProjectJsonName)),
           Output(ProjectAlreadyExists(folder))]
      && Received(outcome.transcript, true, false) == ProjectAlreadyExists(folder)
  {
    var json := folder + [ProjectJsonName];
    assert Parent(json) == folder;
    var t := [Verbose(CheckingProjectFolder(folder)), Verbose(Done()),
              Verbose(ProjectFolderAlreadyExists(folder)), Verbose(FileAlreadyExists(folder, ProjectJsonName))];
    assert Scaffold(before, folder, renderers).transcript == t + [Output(ProjectAlreadyExists(folder))];
    SingleOutput(t, ProjectAlreadyExists(folder));
  }

  /** Without project.json, run returns 0; the project folder, sources and
      tests exist afterwards; the starter files are in place; and the
      output stream gets exactly "Creating Qub project in folder F... Done.". */
  lemma CreationEffect(before: FsState, folder: Path, renderers: Renderers)
    requires before.Valid() && folder + [ProjectJsonName] !in before.files
    ensures var outcome := Scaffold(before, folder, renderers);
      && outcome.exitCode == 0
      && outcome.after.Valid()
      && outcome.after.folders == before.folders + Prefixes(folder) + {folder + ["sources"], folder + ["tests"]}
      && outcome.after.files == StarterFiles(before.files, folder, renderers)
      && Received(outcome.transcript, true, false) == CreatingProject(folder) + Done()
  {
    var located := LocateProjectFolder(before, folder);
    LocateEffect(before, folder);
    CreateArtifactsEffect(located, folder, renderers);
    CreateArtifactsOutput(located, folder, renderers);
  }

  /** After any run the file system is still well formed and the project
      folder exists; it was created only when it was missing, and only the
      creation branch adds sources and tests. */
  lemma FoldersAfterwards(before: FsState, folder: Path, renderers: Renderers)
    requires before.Valid()
    ensures var outcome := Scaffold(before, folder, renderers);
      && outcome.after.Valid()
      && folder in outcome.after.folders
      && (folder in before.folders ==> Prefixes(folder) <= before.folders)
      && outcome.after.folders == before.folders + Prefixes(folder)
           + (if outcome.exitCode == 0 then {folder + ["sources"], folder + ["tests"]} else {})
  {
    if folder + [ProjectJsonName] in before.files {
      ExistingProjectUnchanged(before, folder, renderers);
      assert Parent(folder + [ProjectJsonName]) == folder;
      AncestorsPresent(before, folder);
    } else {
      CreationEffect(before, folder, renderers);
      if folder in before.folders {
        AncestorsPresent(before, folder);
      }
    }
  }

  /** What StarterFiles holds: the four starter files besides every file
      there was, those unchanged unless project.json. */
  lemma StarterFilesContents(files: map<Path, string>, folder: Path, renderers: Renderers)
    requires folder + [ProjectJsonName] !in files
    ensures var result := StarterFiles(files, folder, renderers);
      var readme, license, gitignore := folder + ["README.md"], folder + ["LICENSE"], folder + [".gitignore"];
      && result.Keys == files.Keys + {folder + [ProjectJsonName], readme, license, gitignore}
      && (forall p | p in files :: result[p] == files[p])
      && result[folder + [ProjectJsonName]] == renderers.projectJson(Name(folder), Publisher, Version)
      && (readme !in files ==> result[readme] == ReadmeText(renderers, Name(folder)))
      && (license !in files ==> result[license] == renderers.licenseText)
      && (gitignore !in files ==> result[gitignore] == GitIgnoreText())
  {
    var n := |folder|;
    assert (folder + [ProjectJsonName])[n] == ProjectJsonName;
    assert (folder + ["README.md"])[n] == "README.md";
    assert (folder + ["LICENSE"])[n] == "LICENSE";
    assert (folder + [".gitignore"])[n] == ".gitignore";
  }

  /** The creation branch writes project.json from the folder's name, adds
      README.md, LICENSE and .gitignore with their fixed contents where they
      are missing, and keeps every file that was there. */
  lemma StarterFilesWritten(before: FsState, folder: Path, renderers: Renderers)
    requires before.Valid() && folder + [ProjectJsonName] !in before.files
    ensures var after := Scaffold(before, folder, renderers).after;
      var readme, license, gitignore := folder + ["README.md"], folder + ["LICENSE"], folder + [".gitignore"];
      && after.files.Keys == before.files.Keys + {folder + [ProjectJsonName], readme, license, gitignore}
      && (forall p | p in before.files :: after.files[p] == before.files[p])
      && after.files[folder + [ProjectJsonName]] == renderers.projectJson(Name(folder), "qub", "1")
      && (readme !in before.files ==>
            after.files[readme] == "# " + renderers.signatureIgnoringVersion("qub", Name(folder), "1") + "\n")
      && (license !in before.files ==> after.files[license] == renderers.licenseText)
      && (gitignore !in before.files ==> after.files[gitignore] == ".idea\nout\noutputs\ntarget")
  {
    CreationEffect(before, folder, renderers);
    StarterFilesContents(before.files, folder, renderers);
    GitIgnoreContents();
  }

  /** Without project.json, run returns 0 and the whole transcript is the
      folder check followed by the creation branch's lines, each starter
      entry's step decided by the file system before the run: every entry
      that already existed gets its verbose "already exists" line instead
      of the creation lines, and every missing one gets the creation lines. */
  lemma ExistingEntriesReported(before: FsState, folder: Path, renderers: Renderers)
    requires folder + [ProjectJsonName] !in before.files
    ensures var outcome := Scaffold(before, folder, renderers);
      && outcome.exitCode == 0
      && (folder + ["README.md"] in before.files ==>
            Verbose(FileAlreadyExists(folder, "README.md")) in outcome.transcript)
      && (folder + ["LICENSE"] in before.files ==>
            Verbose(FileAlreadyExists(folder, "LICENSE")) in outcome.transcript)
      && (folder + [".gitignore"] in before.files ==>
            Verbose(FileAlreadyExists(folder, ".gitignore")) in outcome.transcript)
      && (folder + ["sources"] in before.folders ==>
            Verbose(SubfolderAlreadyExists(folder, "sources")) in outcome.transcript)
      && (folder + ["tests"] in before.folders ==>
            Verbose(SubfolderAlreadyExists(folder, "tests")) in outcome.transcript)
      && outcome.transcript
         == WithCreation(LocateProjectFolder(before, folder).transcript, folder, before.files, before.folders)
  {
    var located := LocateProjectFolder(before, folder);
    CreationTranscript(located, folder, renderers);
    assert before.folders <= located.state.folders <= before.folders + Prefixes(folder);
    ChildNotPrefix(folder, "sources");
    ChildNotPrefix(folder, "tests");
    assert FolderStepLines(located.state.folders, folder, "sources") == FolderStepLines(before.folders, folder, "sources");
    assert FolderStepLines(located.state.folders, folder, "tests") == FolderStepLines(before.folders, folder, "tests");
  }

  /** Adding the starter entries, and the folders above the project
      folder, to a file system with nothing below the project folder. */
  lemma StarterEntriesBelow(before: FsState, after: FsState, folder: Path)
    requires before.Entries(folder) == {}
    requires after.folders == before.folders + Prefixes(folder) + {folder + ["sources"], folder + ["tests"]}
    requires after.files.Keys
          == before.files.Keys + {folder + [ProjectJsonName], folder + ["README.md"], folder + ["LICENSE"], folder + [".gitignore"]}
    ensures after.Entries(folder) == StarterEntries(folder)
  {
    forall q | q in StarterEntries(folder) ensures q in after.Entries(folder) {
      assert q[..|folder|] == folder;
    }
    forall q | q in after.Entries(folder) ensures q in StarterEntries(folder) {
      assert q !in Prefixes(folder);
      assert q in before.Entries(folder) <==> q in before.folders + before.files.Keys;
    }
  }

  /** An empty project folder ends up holding exactly the six starter
      entries. */
  lemma EmptyFolderGetsStarterEntries(before: FsState, folder: Path, renderers: Renderers)
    requires before.Valid() && before.Entries(folder) == {}
    ensures var outcome := Scaffold(before, folder, renderers);
      outcome.exitCode == 0 && outcome.after.Entries(folder) == StarterEntries(folder)
  {
    var json := folder + [ProjectJsonName];
    assert json[..|folder|] == folder;
    assert json in before.files ==> json in before.Entries(folder);
    CreationEffect(before, folder, renderers);
    StarterFilesContents(before.files, folder, renderers);
    StarterEntriesBelow(before, Scaffold(before, folder, renderers).after, folder);
  }

  /** A missing project folder is created holding exactly the six starter
      entries. */
  lemma MissingFolderGetsStarterEntries(before: FsState, folder: Path, renderers: Renderers)
    requires before.Valid() && folder !in before.folders
    ensures var outcome := Scaffold(before, folder, renderers);
      && outcome.exitCode == 0
      && folder in outcome.after.folders
      && outcome.after.Entries(folder) == StarterEntries(folder)
  {
    MissingFolderIsEmpty(before, folder);
    EmptyFolderGetsStarterEntries(before, folder, renderers);
    FoldersAfterwards(before, folder, renderers);
  }

  /** A second run on the same folder finds the project and changes
      nothing. */
  lemma SecondRunChangesNothing(before: FsState, folder: Path, renderers: Renderers)
    requires before.Valid()
    ensures var first := Scaffold(before, folder, renderers);
      var second := Scaffold(first.after, folder, renderers);
      second.exitCode == -1 && second.after == first.after
  {
    var first := Scaffold(before, folder, renderers);
    FoldersAfterwards(before, folder, renderers);
    if folder + [ProjectJsonName] !in before.files {
      StarterFilesWritten(before, folder, renderers);
    }
    ExistingProjectUnchanged(first.after, folder, renderers);
  }
}

/** QubCreateProjectRun.run: make sure a folder holds a Qub project's starter
    files, unless it already has a project.json. */
module CreateProjectRun {
  import opened FileSystems
  import opened Streams
  import opened RunParameters
  import opened RunMessages

  /** What the run takes from outside this model: ProjectJSON's pretty
      toString of (project, publisher, version), ProjectSignature's
      toStringIgnoreVersion of (publisher, project, version), and the text
      written to LICENSE, which Qub fixes (License.MitLicense()). */
  datatype Renderers = Renderers(
    projectJson: (string, string, string) -> string,
    signatureIgnoringVersion: (string, string, string) -> string,
    licenseText: string)

  const ProjectJsonName: string := "project.json"
  const Publisher: string := "qub"
  const Version: string := "1"

  /** Strings.join(separator, parts). */
  function Join(separator: char, parts: seq<string>): string
  {
    if |parts| == 0 then ""
    else if |parts| == 1 then parts[0]
    else parts[0] + [separator] + Join(separator, parts[1..])
  }

  function ReadmeText(renderers: Renderers, project: string): string
  {
    "# " + renderers.signatureIgnoringVersion(Publisher, project, Version) + "\n"
  }

  const GitIgnoreLines: seq<string> := [".idea", "out", "outputs", "target"]

  function GitIgnoreText(): string
  {
    Join('\n', GitIgnoreLines)
  }

  /** A run in progress: the file system so far and every write so far. */
  datatype Progress = Progress(state: FsState, transcript: seq<Message>) {
    function WriteOutput(s: string): Progress
    {
      Progress(state, transcript + [Output(s)])
    }

    function WriteVerbose(s: string): Progress
    {
      Progress(state, transcript + [Verbose(s)])
    }

    function CreateFolder(p: Path): Progress
    {
      Progress(state.WithFolder(p), transcript)
    }

    function SetFile(p: Path, contents: string): Progress
      requires p != []
    {
      Progress(state.WithFile(p, contents), transcript)
    }

    /** One of the README.md, LICENSE and .gitignore steps: write the file
        only when it is absent. */
    function EnsureFile(folder: Path, name: string, contents: string): Progress
    {
      var path := folder + [name];
      if path in state.files then
        WriteVerbose(FileAlreadyExists(folder, name))
      else
        WriteVerbose(CreatingFile(folder, name))
          .SetFile(path, contents)
          .WriteVerbose(Done())
    }

    /** The sources and tests steps: create the folder only when it is
        absent. */
    function EnsureFolder(folder: Path, name: string): Progress
    {
      var path := folder + [name];
      if path in state.folders then
        WriteVerbose(SubfolderAlreadyExists(folder, name))
      else
        WriteVerbose(CreatingSubfolder(folder, name))
          .CreateFolder(path)
          .WriteVerbose(Done())
    }
    /** Lines 103-168 of run: README.md, LICENSE and .gitignore, in that
        order. */
    function EnsureStarterFiles(folder: Path, renderers: Renderers): Progress
    {
      var project := Name(folder);
      this
        .EnsureFile(folder, "README.md", ReadmeText(renderers, project))
        .EnsureFile(folder, "LICENSE", renderers.licenseText)
        .EnsureFile(folder, ".gitignore", GitIgnoreText())
    }

    /** Lines 170-192 of run: sources, then tests. */
    function EnsureStarterFolders(folder: Path): Progress
    {
      EnsureFolder(folder, "sources").EnsureFolder(folder, "tests")
    }
  }

  /** The exit code, the file system afterwards and every write, in order. */
  datatype RunOutcome = RunOutcome(exitCode: int, after: FsState, transcript: seq<Message>)

  /** The project folder check: report it, and create the folder when it is
      missing. */
  function LocateProjectFolder(before: FsState, folder: Path): Progress
  {
    var checked := Progress(before, [])
      .WriteVerbose(CheckingProjectFolder(folder))
      .WriteVerbose(Done());
    if folder in before.folders then
      checked.WriteVerbose(ProjectFolderAlreadyExists(folder))
    else
      checked.WriteVerbose(CreatingProjectFolder(folder))
        .CreateFolder(folder)
        .WriteVerbose(Done())
  }

  /** The branch taken when project.json is absent: write it, then each
      other starter entry that is missing, in the fixed order. */
  function CreateArtifacts(located: Progress, folder: Path, renderers: Renderers): Progress
  {
    var project := Name(folder);
    located
      .WriteOutput(CreatingProject(folder))
      .WriteVerbose(BlankLine())
      .WriteVerbose(CreatingFile(folder, ProjectJsonName))
      .SetFile(folder + [ProjectJsonName], renderers.projectJson(project, Publisher, Version))
      .WriteVerbose(Done())
      .EnsureStarterFiles(folder, renderers)
      .EnsureStarterFolders(folder)
      .WriteOutput(Done())
  }

  /** What one run does to the file system `before` for the project folder
      at `folder`. */
  function Scaffold(before: FsState, folder: Path, renderers: Renderers): RunOutcome
  {
    var located := LocateProjectFolder(before, folder);
    if folder + [ProjectJsonName] in located.state.files then
      var done := located
        .WriteVerbose(FileAlreadyExists(folder, ProjectJsonName))
        .WriteOutput(ProjectAlreadyExists(folder));
      RunOutcome(-1, done.state, done.transcript)
    else
      var done := CreateArtifacts(located, folder, renderers);
      RunOutcome(0, done.state, done.transcript)
  }

  method EnsureFile(fs: FileSystem, streams: LogStreams, folder: Path, name: string, contents: string)
    requires streams.Valid()
    modifies fs, streams, streams.output, streams.verbose.inner, streams.log
    ensures streams.Valid() && streams.log.disposed == old(streams.log.disposed)
    ensures var p := Progress(old(fs.State()), old(streams.transcript)).EnsureFile(folder, name, contents);
      fs.State() == p.state && streams.transcript == p.transcript
  {
    var path := folder + [name];
    var present := fs.FileExists(path);
    if present {
      streams.WriteVerbose(FileAlreadyExists(folder, name));
    } else {
      streams.WriteVerbose(CreatingFile(folder, name));
      fs.SetFileContents(path, contents);
      streams.WriteVerbose(Done());
    }
  }

  method EnsureFolder(fs: FileSystem, streams: LogStreams, folder: Path, name: string)
    requires streams.Valid()
    modifies fs, streams, streams.output, streams.verbose.inner, streams.log
    ensures streams.Valid() && streams.log.disposed == old(streams.log.disposed)
    ensures var p := Progress(old(fs.State()), old(streams.transcript)).EnsureFolder(folder, name);
      fs.State() == p.state && streams.transcript == p.transcript
  {
    var path := folder + [name];
    var present := fs.FolderExists(path);
    if present {
      streams.WriteVerbose(SubfolderAlreadyExists(folder, name));
    } else {
      streams.WriteVerbose(CreatingSubfolder(folder, name));
      // A FolderAlreadyExists outcome is caught and treated as success.
      var _ := fs.CreateFolder(path);
      streams.WriteVerbose(Done());
    }
  }

  /** Lines 71-73 of run: create the missing project folder. */
  method CreateProjectFolder(fs: FileSystem, streams: LogStreams, folder: Path)
    requires streams.Valid() && folder !in fs.State().folders
    modifies fs, streams, streams.output, streams.verbose.inner, streams.log
    ensures streams.Valid() && streams.log.disposed == old(streams.log.disposed)
    ensures var p := Progress(old(fs.State()), old(streams.transcript))
        .WriteVerbose(CreatingProjectFolder(folder)).CreateFolder(folder).WriteVerbose(Done());
      fs.State() == p.state && streams.transcript == p.transcript
  {
    streams.WriteVerbose(CreatingProjectFolder(folder));
    var created := fs.CreateFolder(folder);
    // This create does not catch FolderAlreadyExists; the check just made
    // rules it out, as nothing else writes in between.
    assert created == Created;
    streams.WriteVerbose(Done());
  }

  /** Lines 62-74 of run: the project folder check and create. */
  method CheckProjectFolder(fs: FileSystem, streams: LogStreams, folder: Path)
    requires streams.Valid() && streams.transcript == []
    modifies fs, streams, streams.output, streams.verbose.inner, streams.log
    ensures streams.Valid() && streams.log.disposed == old(streams.log.disposed)
    ensures var p := LocateProjectFolder(old(fs.State()), folder);
      fs.State() == p.state && streams.transcript == p.transcript
  {
    streams.WriteVerbose(CheckingProjectFolder(folder));
    var projectFolderAlreadyExists := fs.FolderExists(folder);
    streams.WriteVerbose(Done());
    if projectFolderAlreadyExists {
      streams.WriteVerbose(ProjectFolderAlreadyExists(folder));
    } else {
      CreateProjectFolder(fs, streams, folder);
    }
  }

  /** Lines 85-194 of run: project.json, then every other missing entry. */
  method WriteArtifacts(fs: FileSystem, streams: LogStreams, folder: Path, renderers: Renderers)
    requires streams.Valid()
    modifies fs, streams, streams.output, streams.verbose.inner, streams.log
    ensures streams.Valid() && streams.log.disposed == old(streams.log.disposed)
    ensures var p := CreateArtifacts(Progress(old(fs.State()), old(streams.transcript)), folder, renderers);
      fs.State() == p.state && streams.transcript == p.transcript
  {
    streams.WriteOutput(CreatingProject(folder));
    streams.WriteVerbose(BlankLine());
    var project := Name(folder);
    streams.WriteVerbose(CreatingFile(folder, ProjectJsonName));
    fs.SetFileContents(folder + [ProjectJsonName], renderers.projectJson(project, Publisher, Version));
    streams.WriteVerbose(Done());
    EnsureFile(fs, streams, folder, "README.md", ReadmeText(renderers, project));
    EnsureFile(fs, streams, folder, "LICENSE", renderers.licenseText);
    EnsureFile(fs, streams, folder, ".gitignore", GitIgnoreText());
    EnsureFolder(fs, streams, folder, "sources");
    EnsureFolder(fs, streams, folder, "tests");
    streams.WriteOutput(Done());
  }

  /** Lines 79-81 of run: project.json is there, so report the project
      and stop. */
  method ReportExistingProject(streams: LogStreams, folder: Path)
    requires streams.Valid()
    modifies streams, streams.output, streams.verbose.inner, streams.log
    ensures streams.Valid() && streams.log.disposed == old(streams.log.disposed)
    ensures streams.transcript == old(streams.transcript)
      + [Verbose(FileAlreadyExists(folder, ProjectJsonName)), Output(ProjectAlreadyExists(folder))]
  {
    streams.WriteVerbose(FileAlreadyExists(folder, ProjectJsonName));
    streams.WriteOutput(ProjectAlreadyExists(folder));
  }

  /** Lines 62-196 of run, on the file system and the log streams: returns
      the exit code. */
  method ScaffoldProject(fs: FileSystem, streams: LogStreams, folder: Path, renderers: Renderers) returns (result: int)
    requires streams.Valid() && streams.transcript == []
    modifies fs, streams, streams.output, streams.verbose.inner, streams.log
    ensures var outcome := Scaffold(old(fs.State()), folder, renderers);
      && result == outcome.exitCode
      && fs.State() == outcome.after
      && streams.transcript == outcome.transcript
    ensures streams.Valid() && streams.log.disposed == old(streams.log.disposed)
  {
    result := 0;
    CheckProjectFolder(fs, streams, folder);
    var projectJsonExists := fs.FileExists(folder + [ProjectJsonName]);
    if projectJsonExists {
      ReportExistingProject(streams, folder);
      result := result - 1;
    } else {
      WriteArtifacts(fs, streams, folder, renderers);
    }
  }

  /** run(parameters): returns the exit code and the run's log file. The
      file system, the output stream and the verbose stream end up as
      Scaffold describes; the log holds every write and is disposed. */
  method Run(parameters: QubCreateProjectRunParameters, renderers: Renderers) returns (result: int, log: LogFile)
    modifies parameters.projectFolder.fileSystem, parameters.output, parameters.verbose.inner
    ensures var outcome := Scaffold(old(parameters.projectFolder.fileSystem.State()), parameters.projectFolder.path, renderers);
      && result == outcome.exitCode
      && parameters.projectFolder.fileSystem.State() == outcome.after
      && log.text == Received(outcome.transcript, true, true)
      && parameters.output.text == old(parameters.output.text)
           + Received(outcome.transcript, true, parameters.output == parameters.verbose.inner && parameters.verbose.isVerbose)
      && parameters.verbose.inner.text == old(parameters.verbose.inner.text)
           + Received(outcome.transcript, parameters.verbose.inner == parameters.output, parameters.verbose.isVerbose)
    ensures fresh(log) && log.disposed
  {
    var projectFolder := parameters.GetProjectFolder();
    var streams := new LogStreams(parameters.GetOutput(), parameters.GetVerbose());
    result := ScaffoldProject(projectFolder.fileSystem, streams, projectFolder.path, renderers);
    streams.Dispose();
    log := streams.log;
  }
}

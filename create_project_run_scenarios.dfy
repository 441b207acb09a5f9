/** The three run scenarios of QubCreateProjectRunTests, on a file system
    that starts with only its root, for the project folder /project/folder/.
    The test streams are separate, so the output stream receives the output
    writes only. */
module CreateProjectRunScenarios {
  import opened FileSystems
  import opened Streams
  import opened RunMessages
  import opened CreateProjectRun
  import opened CreateProjectRunProperties

  const ProjectFolder: Path := ["project", "folder"]

  lemma ProjectFolderText()
    ensures FolderText(ProjectFolder) == "/project/folder/"
  {
    assert Parent(ProjectFolder) == ["project"];
    assert Parent(["project"]) == [];
  }

  lemma CreationOutputText()
    ensures CreatingProject(ProjectFolder) + Done()
         == "Creating Qub project in folder /project/folder/... Done.\n"
  {
    ProjectFolderText();
  }

  const EmptyRoot: FsState := FsState({[]}, map[])

  const EmptyProjectFolder: FsState := FsState({[], ["project"], ProjectFolder}, map[])

  /** "with non-existing projectFolder": the folder is created, announced
      on the verbose stream, and every starter entry after it. */
  lemma NonExistingProjectFolderTranscript(renderers: Renderers)
    ensures var outcome := Scaffold(EmptyRoot, ProjectFolder, renderers);
      && outcome.exitCode == 0
      && outcome.transcript
         == WithFreshCreation(
              [Verbose(CheckingProjectFolder(ProjectFolder)), Verbose(Done()),
               Verbose(CreatingProjectFolder(ProjectFolder)), Verbose(Done())],
              ProjectFolder)
  {
    assert EmptyRoot.Valid();
    MissingFolderIsEmpty(EmptyRoot, ProjectFolder);
    EmptyFolderTranscript(EmptyRoot, ProjectFolder, renderers);
    LocateLines(EmptyRoot, ProjectFolder);
  }

  /** "with non-existing projectFolder": the new folder holds the six
      starter entries. */
  lemma NonExistingProjectFolderEntries(renderers: Renderers)
    ensures Scaffold(EmptyRoot, ProjectFolder, renderers).after.Entries(ProjectFolder)
         == StarterEntries(ProjectFolder)
  {
    assert EmptyRoot.Valid();
    MissingFolderGetsStarterEntries(EmptyRoot, ProjectFolder, renderers);
  }

  /** "with existing projectFolder": the folder is reported as already
      there, then every starter entry is announced. */
  lemma ExistingProjectFolderTranscript(renderers: Renderers)
    ensures var outcome := Scaffold(EmptyProjectFolder, ProjectFolder, renderers);
      && outcome.exitCode == 0
      && outcome.transcript
         == WithFreshCreation(
              [Verbose(CheckingProjectFolder(ProjectFolder)), Verbose(Done()),
               Verbose(ProjectFolderAlreadyExists(ProjectFolder))],
              ProjectFolder)
  {
    assert Parent(ProjectFolder) == ["project"];
    assert EmptyProjectFolder.Valid();
    assert EmptyProjectFolder.Entries(ProjectFolder) == {};
    EmptyFolderTranscript(EmptyProjectFolder, ProjectFolder, renderers);
    LocateLines(EmptyProjectFolder, ProjectFolder);
  }

  /** "with existing projectFolder": the folder then holds the six starter
      entries. */
  lemma ExistingProjectFolderEntries(renderers: Renderers)
    ensures Scaffold(EmptyProjectFolder, ProjectFolder, renderers).after.Entries(ProjectFolder)
         == StarterEntries(ProjectFolder)
  {
    assert Parent(ProjectFolder) == ["project"];
    assert EmptyProjectFolder.Valid();
    assert EmptyProjectFolder.Entries(ProjectFolder) == {};
    EmptyFolderGetsStarterEntries(EmptyProjectFolder, ProjectFolder, renderers);
  }

  /** In both creation scenarios the output stream shows one line. */
  lemma CreationOutput(before: FsState, renderers: Renderers)
    requires before == EmptyRoot || before == EmptyProjectFolder
    ensures Received(Scaffold(before, ProjectFolder, renderers).transcript, true, false)
         == "Creating Qub project in folder /project/folder/... Done.\n"
  {
    assert Parent(ProjectFolder) == ["project"];
    assert before.Valid();
    CreationEffect(before, ProjectFolder, renderers);
    CreationOutputText();
  }

  /** The lines of the "with existing project.json file" test, rendered. */
  lemma CheckingProjectFolderText()
    ensures CheckingProjectFolder(ProjectFolder) == "Checking if project folder (/project/folder/) already exists..."
  {
    ProjectFolderText();
  }

  lemma ProjectFolderAlreadyExistsText()
    ensures ProjectFolderAlreadyExists(ProjectFolder) == "Project folder (/project/folder/) already exists.\n"
  {
    ProjectFolderText();
  }

  lemma ProjectJsonFileText()
    ensures FileText(ProjectFolder, ProjectJsonName) == "/project/folder/project.json"
  {
    ProjectFolderText();
  }

  lemma ProjectAlreadyExistsText()
    ensures ProjectAlreadyExists(ProjectFolder) == "A Qub project already exists in folder /project/folder/.\n"
  {
    ProjectFolderText();
  }

  /** "with existing project.json file": three verbose lines, one output
      line, exit code -1, and the file system as it was. */
  lemma ExistingProjectJson(renderers: Renderers)
    ensures var before := FsState({[], ["project"], ProjectFolder}, map[ProjectFolder + [ProjectJsonName] := ""]);
      var outcome := Scaffold(before, ProjectFolder, renderers);
      && outcome.exitCode == -1
      && outcome.after == before
      && outcome.transcript
         == [Verbose(CheckingProjectFolder(ProjectFolder)), Verbose(Done()),
             Verbose(ProjectFolderAlreadyExists(ProjectFolder)),
             Verbose(FileAlreadyExists(ProjectFolder, ProjectJsonName)),
             Output(ProjectAlreadyExists(ProjectFolder))]
      && Received(outcome.transcript, true, false) == ProjectAlreadyExists(ProjectFolder)
  {
    var before := FsState({[], ["project"], ProjectFolder}, map[ProjectFolder + [ProjectJsonName] := ""]);
    assert Parent(ProjectFolder) == ["project"];
    assert Parent(ProjectFolder + [ProjectJsonName]) == ProjectFolder;
    assert before.Valid();
    ExistingProjectUnchanged(before, ProjectFolder, renderers);
  }
}

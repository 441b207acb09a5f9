# qub-createproject: a verified model of the project scaffolding run

`qub-createproject` makes sure that a folder holds a new Qub project. Its
`run` action does these steps:

1. It checks whether the project folder exists and creates it if it is missing.
2. It stops with exit code -1 if the folder already holds `project.json`.
3. Otherwise it writes `project.json`. Then it adds `README.md`, `LICENSE`,
   `.gitignore`, `sources/` and `tests/`, each one only if it is missing.
4. It returns 0.

While it runs, it writes one line of progress to the output stream and a
step-by-step account to the verbose stream. Both are also copied into a
log file.

The model has these modules:

- `FileSystems`: Qub's file system as a set of folder paths and a map from
  file paths to contents. It includes the `FileSystem` class that the run
  changes in place, `Folder.toString()`, and `Folder.getName()`.
- `Streams`: the output, verbose and log streams. `LogStreams` is the tee
  that sits in front of them. It records every write in a ghost transcript.
  From that transcript it proves what each stream holds, including when
  the output stream and the verbose stream's target are the same stream.
- `RunMessages`: every piece of text the run writes, each defined once.
- `CreateProjectRun`: the run itself. `Run`, `ScaffoldProject` and their
  helper methods change a `FileSystem` and a `LogStreams` step by step, the
  way the Java code does. Each method is proved against the pure function
  `Scaffold`, which states the exit code, the file system afterwards and
  the writes in order.
- `CreateProjectRunProperties`: what the run promises, proved about
  `Scaffold`.
- `CreateProjectRunScenarios`: the three scenarios of
  `QubCreateProjectRunTests`, on the folder `/project/folder/`.
- `RunParameters`: the `QubCreateProjectRunParameters` class.
- `CreateProject`: `getActionFullName`.
- `License`: the MIT license text that Qub writes to `LICENSE`.
- `Wrappers` and `PreCondition`: `Option` and `Result`, and Qub's
  precondition failures with their messages.

The JSON serialiser and `ProjectSignature.toStringIgnoreVersion` come from
other Qub libraries. The model takes them as function parameters (the
`Renderers` datatype), together with the license text.

The model follows the code as written:

- The project folder is created by `projectFolder.create()` at
  sources/qub/QubCreateProjectRun.java:72. That call does not catch
  "folder already exists"; only the `sources` and `tests` creates do
  (lines 178 and 190). `CreateProjectRun.CreateProjectFolder` shows that,
  right after the check, this create always succeeds.
- The output lines say "Qub project" ("Creating Qub project in folder …",
  "A Qub project already exists in folder …").
- When `project.json` is missing, any other entries already in the folder
  stay where they are. The folder holds exactly the six starter entries
  only when it started empty or missing
  (`EmptyFolderGetsStarterEntries`, `MissingFolderGetsStarterEntries`).
- The log file receives every write, output and verbose alike, in order.

## Model

| member | source | states |
|---|---|---|
| CreateProject.GetActionFullName | sources/qub/QubCreateProject.java:30-35 | A missing action name fails with "actionName cannot be null." and an empty one with "actionName cannot be empty.". It succeeds exactly when the name is present and non-empty. The result is the application name, one space and the action name, so its length is their lengths plus one. |
| CreateProject.ActionFullNameInjective | sources/qub/QubCreateProject.java:34 | Two action names with the same full name are equal: the action name can be read back from the full name. |
| CreateProject.ActionFullNameExamples | tests/qub/QubCreateProjectTests.java:65-77 | "a" gives "qub-createproject a" and "bananas" gives "qub-createproject bananas". A null name and an empty name fail with the messages the tests expect. |
| RunParameters.QubCreateProjectRunParameters.constructor | sources/qub/QubCreateProjectRunParameters.java:11-22 | The three fields hold the given objects. The verbose stream is new, not verbose, and writes to a new empty stream. |
| RunParameters.QubCreateProjectRunParameters.Create | sources/qub/QubCreateProjectRunParameters.java:11-27 | The null checks run in the order output, projectFolder, qubProjectDataFolder, and the first missing one names the failure. It succeeds exactly when all three are present. Then the getters return the objects that were passed in, and the verbose stream is new and not verbose. |
| RunParameters.QubCreateProjectRunParameters.SetVerbose | sources/qub/QubCreateProjectRunParameters.java:49-53 | Afterwards getVerbose() returns the new stream, and the call returns the same object. The other three fields are constants. |
| Streams.ReceivedAppend | sources/qub/QubCreateProjectRun.java:56-60 | A stream receives the writes of two stretches of the run one after the other. |
| Streams.LogStreams.constructor | sources/qub/QubCreateProjectRun.java:56-57 | The log file is new, empty and open, the transcript is empty, and which writes each console stream takes is fixed from the stream identities and the verbose flag. |
| Streams.LogStreams.WriteOutput | sources/qub/QubCreateProjectRun.java:59 | An output write is added to the transcript. The log and the output stream receive it. So does the verbose stream's target when it is the output stream. |
| Streams.LogStreams.WriteVerbose | sources/qub/QubCreateProjectRun.java:60 | A verbose write is added to the transcript. The log receives it, and the verbose stream's target receives it only while the stream is verbose. |
| Streams.LogStreams.Dispose | sources/qub/QubCreateProjectRun.java:57 | The log is closed and keeps its text. |
| FileSystems.MissingFolderIsEmpty | sources/qub/QubCreateProjectRun.java:63 | In a well-formed file system, a folder that does not exist has nothing below it. |
| FileSystems.FileSystem.CreateFolder | sources/qub/QubCreateProjectRun.java:72 | Creating an existing folder fails with FolderAlreadyExists and changes nothing. Otherwise the folder and every missing folder above it are created. |
| FileSystems.FileSystem.SetFileContents | sources/qub/QubCreateProjectRun.java:93-100 | Afterwards the file holds the given contents and the folders above it exist. |
| CreateProjectRun.Run | sources/qub/QubCreateProjectRun.java:48-199 | The exit code and the file system afterwards are those of Scaffold. The log holds every write of Scaffold's transcript. The output stream and the verbose stream's target get exactly their share of it, appended to what they held. The log is closed at the end. |
| CreateProjectRun.ScaffoldProject | sources/qub/QubCreateProjectRun.java:52-197 | The exit code, the file system and the transcript are exactly those of Scaffold for the file system before the call. |
| CreateProjectRun.CheckProjectFolder | sources/qub/QubCreateProjectRun.java:62-74 | The folder check and create leave the file system and the transcript as LocateProjectFolder states. |
| CreateProjectRun.CreateProjectFolder | sources/qub/QubCreateProjectRun.java:71-73 | A missing project folder is announced, created together with the folders above it, and reported done. |
| CreateProjectRun.ReportExistingProject | sources/qub/QubCreateProjectRun.java:79-80 | One verbose line says that project.json exists. Then one output line says that a Qub project exists in the folder. |
| CreateProjectRun.WriteArtifacts | sources/qub/QubCreateProjectRun.java:85-194 | The creation branch leaves the file system and the transcript as CreateArtifacts states. |
| CreateProjectRun.EnsureFile | sources/qub/QubCreateProjectRun.java:103-168 | A README.md, LICENSE or .gitignore that exists is reported and left alone. A missing one is announced, written and reported done. |
| CreateProjectRun.EnsureFolder | sources/qub/QubCreateProjectRun.java:170-192 | A sources or tests folder that exists is reported. A missing one is announced, created and reported done. |
| CreateProjectRunProperties.ExitCode | sources/qub/QubCreateProjectRun.java:76-82 | The run returns -1 exactly when project.json already existed in the project folder, and 0 exactly when it did not. |
| CreateProjectRunProperties.ExistingProjectUnchanged | sources/qub/QubCreateProjectRun.java:62-82 | With project.json present, the file system is unchanged and the exit code is -1. The writes are exactly the folder check, "project.json file (…) already exists." and one output line. The output stream receives only "A Qub project already exists in folder F.\n". |
| CreateProjectRunProperties.CreationEffect | sources/qub/QubCreateProjectRun.java:83-194 | With project.json absent, the exit code is 0 and the file system stays well formed. The folders afterwards are those before, the project folder with the folders above it, sources and tests. The files are StarterFiles of those before. The output stream receives exactly "Creating Qub project in folder F..." followed by " Done.\n". |
| CreateProjectRunProperties.FoldersAfterwards | sources/qub/QubCreateProjectRun.java:62-192 | After any run the file system is well formed and the project folder exists. It was created only when it was missing. Only the creation branch adds sources and tests. |
| CreateProjectRunProperties.LocateEffect | sources/qub/QubCreateProjectRun.java:62-74 | The folder check keeps the file system well formed. It only adds the project folder and the folders above it, touches no file, and writes only verbose lines. |
| CreateProjectRunProperties.StarterFilesWritten | sources/qub/QubCreateProjectRun.java:88-168 | The creation branch adds project.json, README.md, LICENSE and .gitignore and keeps every other file's contents. project.json is rendered from the folder name with publisher "qub" and version "1". A missing README.md gets "# " + signature + "\n", LICENSE gets the license text, and .gitignore gets ".idea\nout\noutputs\ntarget". A file that was there keeps its contents. |
| CreateProjectRunProperties.StarterFilesContents | sources/qub/QubCreateProjectRun.java:92-168 | StarterFiles holds every earlier file plus the four starter files. Earlier files are unchanged. The new files hold their starter contents. |
| CreateProjectRunProperties.GitIgnoreContents | sources/qub/QubCreateProjectRun.java:160-165 | The .gitignore text is the four names joined with '\n', with no final newline. |
| CreateProjectRunProperties.ExistingEntriesReported | sources/qub/QubCreateProjectRun.java:62-194 | With project.json absent, the exit code is 0. The transcript is exactly the folder check, then the project.json lines, then for each starter entry either its verbose "already exists" line (when it existed before the run) or its "Creating …" and " Done." lines (when it did not), never both, then " Done." to the output. |
| CreateProjectRunProperties.CreationTranscript | sources/qub/QubCreateProjectRun.java:85-194 | After the folder check, the creation branch writes the project.json lines, one step's lines per starter file and per starter folder in source order (the "already exists" line for an entry that is there, the create lines otherwise), and " Done." to the output. |
| CreateProjectRunProperties.StarterFileSteps | sources/qub/QubCreateProjectRun.java:103-168 | The README.md, LICENSE and .gitignore steps write, in that order, each file's "already exists" line or its create lines, chosen by the files before the first step. They add no folder other than those above and including the project folder. |
| CreateProjectRunProperties.StarterFolderSteps | sources/qub/QubCreateProjectRun.java:170-192 | The sources and tests steps write, in that order, each folder's "already exists" line or its create lines, both chosen by the folders before the first step. |
| CreateProjectRunProperties.FileStep | sources/qub/QubCreateProjectRun.java:103-168 | One starter file step writes the "already exists" line when the file is there and the create lines when it is not, adds exactly that file's path to the files and adds no folder other than those above and including the project folder. |
| License.QubLicenseWritten | sources/qub/QubCreateProjectRun.java:119-147 | With Qub's own collaborators, a LICENSE that was missing is written with the MIT license: its twenty-one lines joined with '\n'. |
| CreateProjectRunProperties.EnsureFileEffect | sources/qub/QubCreateProjectRun.java:103-168 | One starter file step writes the file only when it is missing, keeps every other file and adds no folder. |
| CreateProjectRunProperties.EnsureFolderEffect | sources/qub/QubCreateProjectRun.java:170-192 | One starter folder step leaves that folder in place, adds no other folder and changes no file. |
| CreateProjectRunProperties.CreateArtifactsOutput | sources/qub/QubCreateProjectRun.java:85-194 | After a folder check that wrote only verbose lines, the output stream receives only the announcement and " Done.\n". |
| CreateProjectRunProperties.FreshCreationTranscript | sources/qub/QubCreateProjectRun.java:85-194 | With none of the starter entries in place, the creation branch writes the announcement and one blank verbose line. It then writes "Creating … (…)..." and " Done." for project.json, README.md, LICENSE, .gitignore, sources and tests, in that order, and finally " Done." to the output. |
| CreateProjectRunProperties.EmptyFolderTranscript | sources/qub/QubCreateProjectRun.java:62-194 | For an empty or missing project folder the whole transcript is the folder check followed by the lines of a creation that finds nothing. |
| CreateProjectRunProperties.LocateLines | sources/qub/QubCreateProjectRun.java:62-74 | The folder check makes three verbose writes when the folder exists and four when it has to be created. |
| CreateProjectRunProperties.EmptyFolderGetsStarterEntries | sources/qub/QubCreateProjectRun.java:83-192 | An empty project folder ends up holding exactly the six starter entries, and the exit code is 0. |
| CreateProjectRunProperties.MissingFolderGetsStarterEntries | sources/qub/QubCreateProjectRun.java:62-192 | A missing project folder is created and ends up holding exactly the six starter entries, and the exit code is 0. |
| CreateProjectRunProperties.SecondRunChangesNothing | sources/qub/QubCreateProjectRun.java:76-82 | A second run on the same folder finds the project, returns -1 and changes nothing. |
| CreateProjectRunProperties.QuietWritesNoOutput | sources/qub/QubCreateProjectRun.java:59-60 | A stretch of verbose writes adds nothing to the output stream. |
| CreateProjectRunScenarios.NonExistingProjectFolderTranscript | tests/qub/QubCreateProjectRunTests.java:139-181 | On a file system with only the root, the run reports /project/folder/ missing and creates it. It then creates every starter entry in order and returns 0. |
| CreateProjectRunScenarios.NonExistingProjectFolderEntries | tests/qub/QubCreateProjectRunTests.java:182-190 | Afterwards /project/folder/ holds exactly sources, tests, .gitignore, LICENSE, README.md and project.json. |
| CreateProjectRunScenarios.ExistingProjectFolderTranscript | tests/qub/QubCreateProjectRunTests.java:193-235 | With /project/folder/ present and empty, the run reports it as existing. It then creates every starter entry in order and returns 0. |
| CreateProjectRunScenarios.ExistingProjectFolderEntries | tests/qub/QubCreateProjectRunTests.java:236-244 | Afterwards the folder holds exactly the six starter entries. |
| CreateProjectRunScenarios.CreationOutput | tests/qub/QubCreateProjectRunTests.java:139-209 | In both creation scenarios the output stream holds exactly "Creating Qub project in folder /project/folder/... Done.\n". |
| CreateProjectRunScenarios.ExistingProjectJson | tests/qub/QubCreateProjectRunTests.java:247-283 | With /project/folder/project.json present, the exit code is -1 and the file system is unchanged. The writes are the folder check, the project.json line and the output line, and the output stream holds only that line. |
| CreateProjectRunScenarios.ProjectFolderText | tests/qub/QubCreateProjectRunTests.java:144 | The folder ["project", "folder"] prints as "/project/folder/". |
| CreateProjectRunScenarios.ProjectJsonFileText | tests/qub/QubCreateProjectRunTests.java:269 | Its project.json prints as "/project/folder/project.json". |
| CreateProjectRunScenarios.CheckingProjectFolderText | tests/qub/QubCreateProjectRunTests.java:267 | The folder check reads "Checking if project folder (/project/folder/) already exists...". |
| CreateProjectRunScenarios.ProjectFolderAlreadyExistsText | tests/qub/QubCreateProjectRunTests.java:268 | The existing folder is reported as "Project folder (/project/folder/) already exists.\n". |
| CreateProjectRunScenarios.ProjectAlreadyExistsText | tests/qub/QubCreateProjectRunTests.java:263 | The existing project is reported as "A Qub project already exists in folder /project/folder/.\n". |
| CreateProjectRunScenarios.CreationOutputText | tests/qub/QubCreateProjectRunTests.java:154 | The creation announcement and its end read "Creating Qub project in folder /project/folder/... Done.\n". |

## Left out

- `getParameters` (sources/qub/QubCreateProjectRun.java:11-46) is not modelled. It is command-line parsing and help text, done by a library that is not part of this model.
- `main` and `run(QubProcess)` (sources/qub/QubCreateProject.java:8-28) are not modelled. They only wire the action into Qub's command-line dispatch.
- The null check on `run`'s parameters (line 50) is not modelled: `Run` takes a non-null `QubCreateProjectRunParameters`.
- RunParameters.QubCreateProjectRunParameters.SetVerbose takes a non-null `VerboseStream`. Java's `setVerbose` (sources/qub/QubCreateProjectRunParameters.java:49-53) has no null check and would store null. Every caller in the repository passes a stream.
- The log file is a separate `LogFile` object. Its location and numbering under `logs/<n>.log` in the Qub data folder are not modelled, and writing it does not change the modelled file system.
- The "VERBOSE: " prefix that `VerboseCharacterToByteWriteStream` puts before each verbose line is not modelled. Verbose text reaches the streams as written.
- The JSON serialiser and the project signature are function parameters of `Renderers`, and so are the contents they produce. The license text is a parameter too; Qub's own is `License.MitLicense`, which `License.QubRenderers` passes.
- Futures (`await`) are treated as ordinary synchronous calls.
- I/O failures other than an existing folder are not modelled. Nothing else changes the file system during a run.
- `FileSystems.FsState.Valid` does not keep files and folders apart, and the model's file steps test only files while its folder steps test only folders. So in a well-formed state where the project folder holds a folder named like a starter file (project.json, README.md, LICENSE or .gitignore), the model writes that file beside the folder. Where it holds a file named like a starter folder (sources or tests), the model creates that folder beside the file and reports it created. Either way the run returns 0 and the path ends up both a folder and a file. Qub's file system cannot hold both, so the writes and creates at sources/qub/QubCreateProjectRun.java:93, 111, 123, 160, 178 and 190 would not succeed like this there. The lemmas over well-formed states cover these states with the model's behaviour.
- CreateProjectRunScenarios.ExistingProjectJson: the verbose stream's text is stated as the sequence of messages, not as one rendered string. Each message's text is stated by the rendering lemmas, except the project.json line, for which only the file's path text is stated.
- CreateProjectRunScenarios.NonExistingProjectFolderTranscript and ExistingProjectFolderTranscript: the log's contents are stated as the transcript, not as the rendered lines the tests compare.

/** QubCreateProjectRunParameters: what one run of the scaffolding works on. */
module RunParameters {
  import opened Wrappers
  import opened PreCondition
  import opened FileSystems
  import opened Streams

  class QubCreateProjectRunParameters {
    const output: TextStream
    const projectFolder: Folder
    const qubProjectDataFolder: Folder
    var verbose: VerboseStream

    /** The private constructor, past its null checks: the verbose stream
        defaults to a fresh, silent one. */
    constructor (output: TextStream, projectFolder: Folder, qubProjectDataFolder: Folder)
      ensures this.output == output
      ensures this.projectFolder == projectFolder
      ensures this.qubProjectDataFolder == qubProjectDataFolder
      ensures fresh(verbose) && fresh(verbose.inner)
      ensures !verbose.isVerbose && verbose.inner.text == ""
    {
      this.output := output;
      this.projectFolder := projectFolder;
      this.qubProjectDataFolder := qubProjectDataFolder;
      var sink := new TextStream();
      verbose := new VerboseStream(sink, false);
    }

    /** create(output, projectFolder, qubProjectDataFolder): the three null
        checks, in this order, then a new parameters object. */
    static method Create(output: TextStream?, projectFolder: Option<Folder>, qubProjectDataFolder: Option<Folder>)
      returns (r: Result<QubCreateProjectRunParameters, PreConditionFailure>)
      ensures output == null ==> r == Failure(CannotBeNull("output"))
      ensures output != null && projectFolder == None ==> r == Failure(CannotBeNull("projectFolder"))
      ensures output != null && projectFolder != None && qubProjectDataFolder == None
        ==> r == Failure(CannotBeNull("qubProjectDataFolder"))
      ensures r.Success? <==> output != null && projectFolder.Some? && qubProjectDataFolder.Some?
      ensures r.Success? ==>
        && fresh(r.value)
        && r.value.GetOutput() == output
        && r.value.GetProjectFolder() == projectFolder.value
        && r.value.GetQubProjectDataFolder() == qubProjectDataFolder.value
        && fresh(r.value.GetVerbose())
        && !r.value.GetVerbose().isVerbose
    {
      if output == null {
        return Failure(CannotBeNull("output"));
      }
      if projectFolder == None {
        return Failure(CannotBeNull("projectFolder"));
      }
      if qubProjectDataFolder == None {
        return Failure(CannotBeNull("qubProjectDataFolder"));
      }
      var parameters := new QubCreateProjectRunParameters(output, projectFolder.value, qubProjectDataFolder.value);
      r := Success(parameters);
    }

    function GetOutput(): TextStream
    {
      output
    }

    function GetProjectFolder(): Folder
    {
      projectFolder
    }

    function GetQubProjectDataFolder(): Folder
    {
      qubProjectDataFolder
    }

    function GetVerbose(): VerboseStream
      reads this
    {
      verbose
    }

    /** Replaces the verbose stream and returns this same object; the other
        three fields are constants. */
    method SetVerbose(verbose: VerboseStream) returns (r: QubCreateProjectRunParameters)
      modifies this
      ensures r == this && GetVerbose() == verbose
    {
      this.verbose := verbose;
      r := this;
    }
  }
}

/** The license text of new Qub projects and the collaborators Qub's own
    run passes, kept apart from the run so that the run's proofs do not
    carry the license lines. */
module License {
  import opened FileSystems
  import opened CreateProjectRun
  import opened CreateProjectRunProperties

  /** The lines of the fixed MIT license Qub writes to LICENSE. */
  const MitLicenseLines: seq<string> := [
    "MIT License",
    "",
    "Copyright (c) 2020 danschultequb",
    "",
    "Permission is hereby granted, free of charge, to any person obtaining a copy",
    "of this software and associated documentation files (the \"Software\"), to deal",
    "in the Software without restriction, including without limitation the rights",
    "to use, copy, modify, merge, publish, distribute, sublicense, and/or sell",
    "copies of the Software, and to permit persons to whom the Software is",
    "furnished to do so, subject to the following conditions:",
    "",
    "The above copyright notice and this permission notice shall be included in all",
    "copies or substantial portions of the Software.",
    "",
    "THE SOFTWARE IS PROVIDED \"AS IS\", WITHOUT WARRANTY OF ANY KIND, EXPRESS OR",
    "IMPLIED, INCLUDING BUT NOT LIMITED TO THE WARRANTIES OF MERCHANTABILITY,",
    "FITNESS FOR A PARTICULAR PURPOSE AND NONINFRINGEMENT. IN NO EVENT SHALL THE",
    "AUTHORS OR COPYRIGHT HOLDERS BE LIABLE FOR ANY CLAIM, DAMAGES OR OTHER",
    "LIABILITY, WHETHER IN AN ACTION OF CONTRACT, TORT OR OTHERWISE, ARISING FROM,",
    "OUT OF OR IN CONNECTION WITH THE SOFTWARE OR THE USE OR OTHER DEALINGS IN THE",
    "SOFTWARE."
  ]

  /** The license text: its lines joined with '\n', no final newline. */
  function MitLicense(): string
  {
    Join('\n', MitLicenseLines)
  }

  /** The collaborators of Qub's own run: the given serialisers and the
      MIT license. */
  function QubRenderers(
    projectJson: (string, string, string) -> string,
    signatureIgnoringVersion: (string, string, string) -> string): Renderers
  {
    Renderers(projectJson, signatureIgnoringVersion, MitLicense())
  }

  /** With Qub's own collaborators, a missing LICENSE is written with the
      MIT license text. */
  lemma QubLicenseWritten(
    before: FsState, folder: Path,
    projectJson: (string, string, string) -> string,
    signatureIgnoringVersion: (string, string, string) -> string)
    requires before.Valid() && folder + [ProjectJsonName] !in before.files
    requires folder + ["LICENSE"] !in before.files
    ensures var after := Scaffold(before, folder, QubRenderers(projectJson, signatureIgnoringVersion)).after;
      folder + ["LICENSE"] in after.files && after.files[folder + ["LICENSE"]] == MitLicense()
  {
    StarterFilesWritten(before, folder, QubRenderers(projectJson, signatureIgnoringVersion));
  }
}

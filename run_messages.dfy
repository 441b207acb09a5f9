/** The lines QubCreateProjectRun.run writes, each defined once so that the
    run's specification and its implementation share them. */
module RunMessages {
  import opened FileSystems

  /** Ends each step that was announced with "...". */
  function Done(): string
  {
    " Done.\n"
  }

  /** The empty verbose line that follows the output announcement. */
  function BlankLine(): string
  {
    "\n"
  }

  function CheckingProjectFolder(folder: Path): string
  {
    "Checking if project folder (" + FolderText(folder) + ") already exists..."
  }

  function ProjectFolderAlreadyExists(folder: Path): string
  {
    "Project folder (" + FolderText(folder) + ") already exists.\n"
  }

  function CreatingProjectFolder(folder: Path): string
  {
    "Project folder (" + FolderText(folder) + ") doesn't exist. Creating it now..."
  }

  /** The announcement on the output stream. */
  function CreatingProject(folder: Path): string
  {
    "Creating Qub project in folder " + FolderText(folder) + "..."
  }

  /** The output line when the folder already holds a project.json. */
  function ProjectAlreadyExists(folder: Path): string
  {
    "A Qub project already exists in folder " + FolderText(folder) + ".\n"
  }

  function FileAlreadyExists(folder: Path, name: string): string
  {
    name + " file (" + FileText(folder, name) + ") already exists.\n"
  }

  function CreatingFile(folder: Path, name: string): string
  {
    "Creating " + name + " file (" + FileText(folder, name) + ")..."
  }

  function SubfolderAlreadyExists(folder: Path, name: string): string
  {
    name + " folder (" + FolderText(folder + [name]) + ") already exists.\n"
  }

  function CreatingSubfolder(folder: Path, name: string): string
  {
    "Creating " + name + " folder (" + FolderText(folder + [name]) + ")..."
  }
}

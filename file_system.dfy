/** The part of Qub's file-system library that scaffolding relies on:
    folders and files addressed by paths, with exists, create and
    set-contents. */
module FileSystems {
  /** A path from the root: the names on the way down, ending with the
      entry's own name. The root folder is []. */
  type Path = seq<string>

  function Parent(p: Path): Path
    requires p != []
  {
    p[..|p| - 1]
  }

  /** The root, every folder on the way down to p, and p itself. */
  function Prefixes(p: Path): (r: set<Path>)
    ensures [] in r && p in r
  {
    assert p[..0] == [] && p[..|p|] == p;
    set i | 0 <= i <= |p| :: p[..i]
  }

  /** Folder.toString(): the path with a leading slash and one slash after
      every name, "/project/folder/" for ["project", "folder"]. */
  function FolderText(p: Path): string
  {
    if p == [] then "/" else FolderText(Parent(p)) + p[|p| - 1] + "/"
  }

  /** File.toString() for the file `name` inside folder p. */
  function FileText(folder: Path, name: string): string
  {
    FolderText(folder) + name
  }

  /** Folder.getName(): the last name on the path; the root has none. */
  function Name(p: Path): string
  {
    if p == [] then "" else p[|p| - 1]
  }

  /** The contents of a file system at one moment: which folders exist and
      what every file holds. */
  datatype FsState = FsState(folders: set<Path>, files: map<Path, string>) {
    /** The root exists and every folder and file sits in an existing folder. */
    ghost predicate Valid()
    {
      && [] in folders
      && (forall p | p in folders && p != [] :: Parent(p) in folders)
      && (forall p | p in files :: p != [] && Parent(p) in folders)
    }

    /** Folder.create(): the folder and any missing folder above it. */
    function WithFolder(p: Path): FsState
    {
      FsState(folders + Prefixes(p), files)
    }

    /** File.setContentsAsString(): the file now holds `contents`; the folders
        above it exist. */
    function WithFile(p: Path, contents: string): FsState
      requires p != []
    {
      FsState(folders + Prefixes(Parent(p)), files[p := contents])
    }

    /** The folders and files anywhere below folder p. */
    ghost function Entries(p: Path): set<Path>
    {
      set q | q in folders + files.Keys && |p| < |q| && q[..|p|] == p
    }
  }

  lemma {:induction false} AncestorsPresent(s: FsState, p: Path)
    requires s.Valid() && p in s.folders
    ensures Prefixes(p) <= s.folders
    decreases |p|
  {
    if p != [] {
      AncestorsPresent(s, Parent(p));
      forall q | q in Prefixes(p) ensures q in s.folders {
        var i :| 0 <= i <= |p| && q == p[..i];
        if i < |p| {
          assert q == Parent(p)[..i];
        }
      }
    } else {
      assert Prefixes(p) == {[]};
    }
  }

  /** A child is never among the prefixes of its parent. */
  lemma ChildNotPrefix(p: Path, name: string)
    ensures p + [name] !in Prefixes(p)
  {
    forall i | 0 <= i <= |p| ensures p[..i] != p + [name] {
      assert |p[..i]| < |p + [name]|;
    }
  }

  lemma PrefixesOfChild(p: Path, name: string)
    ensures Prefixes(p + [name]) == Prefixes(p) + {p + [name]}
  {
    var c := p + [name];
    forall q | q in Prefixes(c) ensures q in Prefixes(p) + {c} {
      var i :| 0 <= i <= |c| && q == c[..i];
      if i <= |p| {
        assert q == p[..i];
      }
    }
    forall q | q in Prefixes(p) ensures q in Prefixes(c) {
      var i :| 0 <= i <= |p| && q == p[..i];
      assert q == c[..i];
    }
  }

  lemma WithFolderValid(s: FsState, p: Path)
    requires s.Valid()
    ensures s.WithFolder(p).Valid()
  {
    forall q | q in Prefixes(p) && q != [] ensures Parent(q) in Prefixes(p) {
      var i :| 0 <= i <= |p| && q == p[..i];
      assert Parent(q) == p[..i - 1];
    }
  }

  lemma WithFileValid(s: FsState, p: Path, contents: string)
    requires s.Valid() && p != []
    ensures s.WithFile(p, contents).Valid()
  {
    WithFolderValid(s, Parent(p));
  }

  /** Anything below folder p means p itself exists. */
  lemma EntryImpliesFolder(s: FsState, p: Path, q: Path)
    requires s.Valid() && q in s.Entries(p)
    ensures p in s.folders
  {
    var folder := if q in s.folders then q else Parent(q);
    AncestorsPresent(s, folder);
    assert p == folder[..|p|];
  }

  /** A folder that does not exist holds nothing. */
  lemma MissingFolderIsEmpty(s: FsState, p: Path)
    requires s.Valid()
    ensures p !in s.folders ==> s.Entries(p) == {}
  {
    if s.Entries(p) != {} {
      var q :| q in s.Entries(p);
      EntryImpliesFolder(s, p, q);
    }
  }

  /** Qub's FileSystem object, as far as it is used here. */
  class FileSystem {
    var folders: set<Path>
    var files: map<Path, string>

    function State(): FsState
      reads this
    {
      FsState(folders, files)
    }

    /** InMemoryFileSystem.create() followed by createRoot("/"). */
    constructor ()
      ensures State() == FsState({[]}, map[]) && State().Valid()
    {
      folders := {[]};
      files := map[];
    }

    method FolderExists(p: Path) returns (present: bool)
      ensures present == (p in folders)
    {
      present := p in folders;
    }

    method FileExists(p: Path) returns (present: bool)
      ensures present == (p in files)
    {
      present := p in files;
    }

    /** Folder.create(): fails with FolderAlreadyExists when the folder is there. */
    method CreateFolder(p: Path) returns (outcome: FolderCreation)
      modifies this
      ensures outcome == if p in old(folders) then FolderAlreadyExists else Created
      ensures State() == if outcome == Created then old(State()).WithFolder(p) else old(State())
    {
      if p in folders {
        outcome := FolderAlreadyExists;
      } else {
        folders := folders + Prefixes(p);
        outcome := Created;
      }
    }

    method SetFileContents(p: Path, contents: string)
      requires p != []
      modifies this
      ensures State() == old(State()).WithFile(p, contents)
    {
      folders := folders + Prefixes(Parent(p));
      files := files[p := contents];
    }
  }

  datatype FolderCreation = Created | FolderAlreadyExists

  /** A Qub Folder value: a path on a particular file system. */
  datatype Folder = Folder(fileSystem: FileSystem, path: Path)
}

/**
 * The two tree walks of `CleanerOperations` over a finite directory tree:
 * `ScanDirectory` (inside `RemoveEmptyDirectoriesAsync`), which removes empty
 * directories bottom-up and never enters a directory at a protected path, and
 * `DeleteDirectoryContents`, which empties a directory and falls back to emptying a
 * subdirectory it cannot delete; and the blank-path filter of `DeleteDirectoryTargets`.
 * A walk takes the tree below a directory as a value and returns what is left of it.
 */
module FileTree {
  import opened Wrappers
  import opened Text
  import opened Paths

  /** A directory entry. `locked` marks a file that cannot be deleted (in use or
      protected), which makes `File.Delete` on it and `Directory.Delete(dir, true)` on
      any directory above it fail. */
  datatype Node = File(name: string, locked: bool) | Dir(name: string, children: seq<Node>)

  /** The paths `RemoveEmptyDirectoriesAsync` never deletes or enters: the system
      drive's root and seven directories below it. The protection is by path: a
      directory is skipped when the path it is reached at equals one of these. */
  function ProtectedPaths(root: string): seq<string>
  {
    [root, Combine(root, "Windows"), Combine(root, "Program Files"), Combine(root, "Program Files (x86)"),
     Combine(root, "ProgramData"), Combine(root, "Users"), Combine(root, "$Recycle.Bin"),
     Combine(root, "System Volume Information")]
  }

  /** Whether `path` equals one of `skip`, up to case. */
  predicate Skipped(skip: seq<string>, path: string)
  {
    exists i :: 0 <= i < |skip| && EqualsIgnoreCase(path, skip[i])
  }

  // ---------------------------------------------------------------------------
  // Removing empty directories

  /** What `ScanDirectory(path)` leaves of the entry `n` at `path`: a file stays; a
      skipped directory stays untouched; any other directory is scanned child by
      child and then deleted when nothing is left in it. */
  function ScanNode(path: string, n: Node, skip: seq<string>): seq<Node>
    decreases n
  {
    match n
    case File(_, _) => [n]
    case Dir(name, children) =>
      if Skipped(skip, path) then [n]
      else
        var left := ScanChildren(path, children, skip);
        if left == [] then [] else [Dir(name, left)]
  }

  /** What is left of the entries `cs` of the directory at `path` after each
      subdirectory is scanned. */
  function ScanChildren(path: string, cs: seq<Node>, skip: seq<string>): seq<Node>
    decreases cs
  {
    if cs == [] then []
    else
      var init, c := cs[..|cs| - 1], cs[|cs| - 1];
      ScanChildren(path, init, skip) + ScanNode(Combine(path, c.name), c, skip)
  }

  /** An entry that survives the scan: a file, a skipped directory, or a directory
      with such an entry somewhere below it. */
  predicate Keeps(path: string, n: Node, skip: seq<string>)
    decreases n
  {
    match n
    case File(_, _) => true
    case Dir(_, children) =>
      Skipped(skip, path)
      || exists i :: 0 <= i < |children| && Keeps(Combine(path, children[i].name), children[i], skip)
  }

  /** An entry is removed exactly when no file and no skipped directory lies at or
      below it; what survives of it is a single entry with its own name. */
  lemma {:induction false} ScanNodeRemovesExactlyEmptyTrees(path: string, n: Node, skip: seq<string>)
    ensures ScanNode(path, n, skip) == [] <==> !Keeps(path, n, skip)
    ensures |ScanNode(path, n, skip)| <= 1
    ensures ScanNode(path, n, skip) != [] ==> ScanNode(path, n, skip)[0].name == n.name
    decreases n, 1
  {
    if n.Dir? && !Skipped(skip, path) {
      ScanChildrenEmptyIffNoneKept(path, n.children, skip);
    }
  }

  /** Nothing is left of a list of entries exactly when none of them survives. */
  lemma {:induction false} ScanChildrenEmptyIffNoneKept(path: string, cs: seq<Node>, skip: seq<string>)
    ensures ScanChildren(path, cs, skip) == []
            <==> forall i :: 0 <= i < |cs| ==> !Keeps(Combine(path, cs[i].name), cs[i], skip)
    decreases cs, 0
  {
    if cs != [] {
      var init, c := cs[..|cs| - 1], cs[|cs| - 1];
      ScanChildrenEmptyIffNoneKept(path, init, skip);
      ScanNodeRemovesExactlyEmptyTrees(Combine(path, c.name), c, skip);
      if forall i :: 0 <= i < |init| ==> !Keeps(Combine(path, init[i].name), init[i], skip) {
        if !Keeps(Combine(path, c.name), c, skip) {
          forall i | 0 <= i < |cs|
            ensures !Keeps(Combine(path, cs[i].name), cs[i], skip)
          {
            if i < |init| {
              assert cs[i] == init[i];
            }
          }
        }
      } else {
        var i :| 0 <= i < |init| && Keeps(Combine(path, init[i].name), init[i], skip);
        assert cs[i] == init[i];
      }
    }
  }

  /** A directory reached at a protected path, in any case, is neither entered nor
      deleted: it comes back unchanged, whatever it holds. */
  lemma ProtectedDirectoryIsUntouched(rootPath: string, path: string, n: Node)
    requires n.Dir?
    requires exists i :: 0 <= i < |ProtectedPaths(rootPath)| && EqualsIgnoreCase(path, ProtectedPaths(rootPath)[i])
    ensures ScanNode(path, n, ProtectedPaths(rootPath)) == [n]
  {
  }

  /** The exact spelling of a protected path is one of its spellings in any case. */
  lemma ExactProtectedPathIsProtected(rootPath: string, path: string, n: Node)
    requires n.Dir? && path in ProtectedPaths(rootPath)
    ensures ScanNode(path, n, ProtectedPaths(rootPath)) == [n]
  {
    var skip := ProtectedPaths(rootPath);
    var i :| 0 <= i < |skip| && skip[i] == path;
    EqualsIgnoreCaseIsEquivalence(path, path, path);
    ProtectedDirectoryIsUntouched(rootPath, path, n);
  }

  /** The full paths of the files at or below the entry `n` at `path`. */
  function FilesOf(path: string, n: Node): set<string>
    decreases n
  {
    match n
    case File(_, _) => {path}
    case Dir(_, children) => FilesIn(path, children)
  }

  /** The full paths of the files among and below the entries `cs` of the directory at
      `path`. */
  function FilesIn(path: string, cs: seq<Node>): set<string>
    decreases cs
  {
    if cs == [] then {}
    else
      var init, c := cs[..|cs| - 1], cs[|cs| - 1];
      FilesIn(path, init) + FilesOf(Combine(path, c.name), c)
  }

  /** The scan deletes no file. */
  lemma {:induction false} ScanNodeKeepsFiles(path: string, n: Node, skip: seq<string>)
    ensures ScanNode(path, n, skip) == [] ==> FilesOf(path, n) == {}
    ensures ScanNode(path, n, skip) != [] ==> FilesOf(path, ScanNode(path, n, skip)[0]) == FilesOf(path, n)
    decreases n, 1
  {
    ScanNodeRemovesExactlyEmptyTrees(path, n, skip);
    if n.Dir? && !Skipped(skip, path) {
      ScanChildrenKeepFiles(path, n.children, skip);
    }
  }

  /** Scanning a list of entries deletes no file. */
  lemma {:induction false} ScanChildrenKeepFiles(path: string, cs: seq<Node>, skip: seq<string>)
    ensures FilesIn(path, ScanChildren(path, cs, skip)) == FilesIn(path, cs)
    decreases cs, 0
  {
    if cs != [] {
      var init, c := cs[..|cs| - 1], cs[|cs| - 1];
      ScanChildrenKeepFiles(path, init, skip);
      ScanNodeKeepsFiles(Combine(path, c.name), c, skip);
      ScanNodeRemovesExactlyEmptyTrees(Combine(path, c.name), c, skip);
      FilesInAppend(path, ScanChildren(path, init, skip), ScanNode(Combine(path, c.name), c, skip));
    }
  }

  /** The files of two lists of entries of one directory are those of each. */
  lemma {:induction false} FilesInAppend(path: string, xs: seq<Node>, ys: seq<Node>)
    ensures FilesIn(path, xs + ys) == FilesIn(path, xs) + FilesIn(path, ys)
    decreases ys
  {
    if ys != [] {
      var init := ys[..|ys| - 1];
      assert (xs + ys)[..|xs + ys| - 1] == xs + init;
      assert (xs + ys)[|xs + ys| - 1] == ys[|ys| - 1];
      FilesInAppend(path, xs, init);
    } else {
      assert xs + ys == xs;
    }
  }

  /** No empty directory is left except skipped ones: every directory that survives
      the scan still holds an entry. */
  predicate NoEmptyDirectory(path: string, n: Node, skip: seq<string>)
    decreases n
  {
    match n
    case File(_, _) => true
    case Dir(_, children) =>
      Skipped(skip, path)
      || (children != []
          && forall i :: 0 <= i < |children| ==> NoEmptyDirectory(Combine(path, children[i].name), children[i], skip))
  }

  /** After the scan no directory below the start is empty, unless it is skipped. */
  lemma {:induction false} ScanLeavesNoEmptyDirectory(path: string, n: Node, skip: seq<string>)
    ensures forall i :: 0 <= i < |ScanNode(path, n, skip)| ==>
              NoEmptyDirectory(path, ScanNode(path, n, skip)[i], skip)
    decreases n, 1
  {
    if n.Dir? && !Skipped(skip, path) {
      var left := ScanChildren(path, n.children, skip);
      ScanChildrenLeaveNoEmptyDirectory(path, n.children, skip);
      if left != [] {
        assert NoEmptyDirectory(path, Dir(n.name, left), skip);
      }
    }
  }

  /** After scanning a list of entries no directory among or below them is empty,
      unless it is skipped. */
  lemma {:induction false} ScanChildrenLeaveNoEmptyDirectory(path: string, cs: seq<Node>, skip: seq<string>)
    ensures forall i :: 0 <= i < |ScanChildren(path, cs, skip)| ==>
              NoEmptyDirectory(Combine(path, ScanChildren(path, cs, skip)[i].name), ScanChildren(path, cs, skip)[i], skip)
    decreases cs, 0
  {
    if cs != [] {
      var init, c := cs[..|cs| - 1], cs[|cs| - 1];
      var before: seq<Node>, last: seq<Node> := ScanChildren(path, init, skip), ScanNode(Combine(path, c.name), c, skip);
      ScanChildrenLeaveNoEmptyDirectory(path, init, skip);
      ScanLeavesNoEmptyDirectory(Combine(path, c.name), c, skip);
      ScanNodeRemovesExactlyEmptyTrees(Combine(path, c.name), c, skip);
      forall i | 0 <= i < |before + last|
        ensures NoEmptyDirectory(Combine(path, (before + last)[i].name), (before + last)[i], skip)
      {
        if i >= |before| {
          assert (before + last)[i] == last[0];
        }
      }
    }
  }

  /** `ScanDirectory(path)` on the directory `dir`: scans each subdirectory, then
      deletes `dir` when it has no entry left. `None` means `dir` was deleted. */
  method ScanDirectory(path: string, dir: Node, skip: seq<string>) returns (left: Option<Node>)
    requires dir.Dir?
    ensures left.None? ==> ScanNode(path, dir, skip) == []
    ensures left.Some? ==> ScanNode(path, dir, skip) == [left.value]
    decreases dir, 1
  {
    if Skipped(skip, path) {
      return Some(dir);
    }
    var entries := ScanEntries(path, dir.children, skip);
    if entries == [] {
      left := None;
    } else {
      left := Some(Dir(dir.name, entries));
    }
  }

  /** The loop of `ScanDirectory` over the entries of the directory at `path`. */
  method ScanEntries(path: string, cs: seq<Node>, skip: seq<string>) returns (left: seq<Node>)
    ensures left == ScanChildren(path, cs, skip)
    decreases cs, 0
  {
    left := [];
    var i := 0;
    while i < |cs|
      invariant i <= |cs|
      invariant left == ScanChildren(path, cs[..i], skip)
    {
      var c := cs[i];
      assert cs[..i + 1][..i] == cs[..i];
      var sub := Combine(path, c.name);
      if c.Dir? {
        var scanned := ScanDirectory(sub, c, skip);
        if scanned.Some? {
          left := left + [scanned.value];
        }
      } else {
        left := left + [c];
      }
      i := i + 1;
    }
    assert cs[..|cs|] == cs;
  }

  /** `RemoveEmptyDirectoriesAsync` on the system drive whose root directory is `root`
      at `rootPath`: scans each entry of the root with the protected paths skipped.
      The root itself and the files in it stay. */
  method RemoveEmptyDirectories(rootPath: string, root: Node) returns (after: Node)
    requires root.Dir?
    ensures after == Dir(root.name, ScanChildren(rootPath, root.children, ProtectedPaths(rootPath)))
  {
    var entries := ScanEntries(rootPath, root.children, ProtectedPaths(rootPath));
    after := Dir(root.name, entries);
  }

  // ---------------------------------------------------------------------------
  // Emptying a directory

  /** Whether a locked file lies at or below `n`, which makes a recursive delete of
      `n` fail. */
  predicate HasLocked(n: Node)
    decreases n
  {
    match n
    case File(_, locked) => locked
    case Dir(_, children) => exists i :: 0 <= i < |children| && HasLocked(children[i])
  }

  /** The files among `cs` that `File.Delete` cannot remove. */
  function LockedFiles(cs: seq<Node>): seq<Node>
  {
    if cs == [] then []
    else
      var init, c := cs[..|cs| - 1], cs[|cs| - 1];
      LockedFiles(init) + (if c.File? && c.locked then [c] else [])
  }

  /** The subdirectories among `cs` after their recursive delete: those without a
      locked file are gone, the others are emptied instead. */
  function EmptiedDirs(cs: seq<Node>): seq<Node>
    decreases cs
  {
    if cs == [] then []
    else
      var init, c := cs[..|cs| - 1], cs[|cs| - 1];
      EmptiedDirs(init) + (if c.Dir? && HasLocked(c) then [Emptied(c)] else [])
  }

  /** What `DeleteDirectoryContents` leaves of the directory `d`: the directory itself,
      holding its locked files and its emptied subdirectories that could not be
      deleted. */
  function Emptied(d: Node): (r: Node)
    requires d.Dir?
    decreases d, 1
  {
    Dir(d.name, LockedFiles(d.children) + EmptiedDirs(d.children))
  }

  /** The full paths of the locked files at or below `n` at `path`. */
  function LockedFilesOf(path: string, n: Node): set<string>
    decreases n
  {
    match n
    case File(_, locked) => if locked then {path} else {}
    case Dir(_, children) => LockedFilesIn(path, children)
  }

  function LockedFilesIn(path: string, cs: seq<Node>): set<string>
    decreases cs
  {
    if cs == [] then {}
    else
      var init, c := cs[..|cs| - 1], cs[|cs| - 1];
      LockedFilesIn(path, init) + LockedFilesOf(Combine(path, c.name), c)
  }

  /** Only locked files survive, and all of them do: after `DeleteDirectoryContents`
      the files below the directory are exactly its locked files. */
  lemma {:induction false} EmptiedKeepsExactlyLockedFiles(path: string, d: Node)
    requires d.Dir?
    ensures FilesOf(path, Emptied(d)) == LockedFilesOf(path, d)
    decreases d, 2
  {
    LockedFilesAndDirs(path, d.children);
    FilesInAppend(path, LockedFiles(d.children), EmptiedDirs(d.children));
  }

  /** The files of the two parts of an emptied directory: the locked files among its
      entries, and the locked files below its subdirectories. */
  lemma {:induction false} LockedFilesAndDirs(path: string, cs: seq<Node>)
    ensures FilesIn(path, LockedFiles(cs)) + FilesIn(path, EmptiedDirs(cs)) == LockedFilesIn(path, cs)
    decreases cs, 1
  {
    if cs != [] {
      var init, c := cs[..|cs| - 1], cs[|cs| - 1];
      LockedFilesAndDirs(path, init);
      var lf := if c.File? && c.locked then [c] else [];
      var ed := if c.Dir? && HasLocked(c) then [Emptied(c)] else [];
      FilesInAppend(path, LockedFiles(init), lf);
      FilesInAppend(path, EmptiedDirs(init), ed);
      if c.Dir? {
        if HasLocked(c) {
          EmptiedKeepsExactlyLockedFiles(Combine(path, c.name), c);
          assert FilesIn(path, ed) == FilesOf(Combine(path, c.name), Emptied(c)) by {
            assert ed[..0] == [];
          }
        } else {
          NoLockedNoLockedFiles(Combine(path, c.name), c);
        }
      } else if c.locked {
        assert lf[..0] == [];
      }
    }
  }

  /** Without a locked file there is no locked file path. */
  lemma {:induction false} NoLockedNoLockedFiles(path: string, n: Node)
    requires !HasLocked(n)
    ensures LockedFilesOf(path, n) == {}
    decreases n, 1
  {
    if n.Dir? {
      NoLockedNoLockedFilesIn(path, n.children);
    }
  }

  lemma {:induction false} NoLockedNoLockedFilesIn(path: string, cs: seq<Node>)
    requires forall i :: 0 <= i < |cs| ==> !HasLocked(cs[i])
    ensures LockedFilesIn(path, cs) == {}
    decreases cs, 0
  {
    if cs != [] {
      var init, c := cs[..|cs| - 1], cs[|cs| - 1];
      assert forall i :: 0 <= i < |init| ==> init[i] == cs[i];
      NoLockedNoLockedFilesIn(path, init);
      NoLockedNoLockedFiles(Combine(path, c.name), c);
    }
  }

  /** A recursive delete of `n` fails exactly when some locked file lies at or below
      it: `HasLocked` and the set of locked file paths agree. */
  lemma {:induction false} HasLockedIffLockedFileBelow(path: string, n: Node)
    ensures HasLocked(n) <==> LockedFilesOf(path, n) != {}
    decreases n, 1
  {
    if !HasLocked(n) {
      NoLockedNoLockedFiles(path, n);
    } else if n.Dir? {
      LockedFileBelowIn(path, n.children);
    }
  }

  lemma {:induction false} LockedFileBelowIn(path: string, cs: seq<Node>)
    requires exists i :: 0 <= i < |cs| && HasLocked(cs[i])
    ensures LockedFilesIn(path, cs) != {}
    decreases cs, 0
  {
    var init, c := cs[..|cs| - 1], cs[|cs| - 1];
    if HasLocked(c) {
      HasLockedIffLockedFileBelow(Combine(path, c.name), c);
    } else {
      var i :| 0 <= i < |cs| && HasLocked(cs[i]);
      assert init[i] == cs[i];
      LockedFileBelowIn(path, init);
    }
  }

  /** Every subdirectory left after `DeleteDirectoryContents` holds a locked file,
      and the directory given keeps its name. */
  lemma EmptiedDirsHoldLockedFiles(d: Node)
    requires d.Dir?
    ensures Emptied(d).name == d.name
    ensures forall i :: 0 <= i < |EmptiedDirs(d.children)| ==> HasLocked(EmptiedDirs(d.children)[i])
  {
    EmptiedDirsLocked(d.children);
  }

  lemma {:induction false} EmptiedDirsLocked(cs: seq<Node>)
    ensures forall i :: 0 <= i < |EmptiedDirs(cs)| ==> EmptiedDirs(cs)[i].Dir? && HasLocked(EmptiedDirs(cs)[i])
    decreases cs
  {
    if cs != [] {
      var init, c := cs[..|cs| - 1], cs[|cs| - 1];
      EmptiedDirsLocked(init);
      if c.Dir? && HasLocked(c) {
        EmptiedStillLocked(c);
      }
    }
  }

  /** Emptying a directory that holds a locked file leaves one in it. */
  lemma {:induction false} EmptiedStillLocked(d: Node)
    requires d.Dir? && HasLocked(d)
    ensures HasLocked(Emptied(d))
    decreases d
  {
    var i :| 0 <= i < |d.children| && HasLocked(d.children[i]);
    var c := d.children[i];
    if c.File? {
      LockedFileKept(d.children, i);
      var k :| 0 <= k < |LockedFiles(d.children)| && LockedFiles(d.children)[k] == c;
      assert Emptied(d).children[k] == c;
    } else {
      EmptiedStillLocked(c);
      LockedDirKept(d.children, i);
      var k :| 0 <= k < |EmptiedDirs(d.children)| && EmptiedDirs(d.children)[k] == Emptied(c);
      assert Emptied(d).children[|LockedFiles(d.children)| + k] == Emptied(c);
    }
  }

  lemma {:induction false} LockedFileKept(cs: seq<Node>, i: nat)
    requires i < |cs| && cs[i].File? && cs[i].locked
    ensures cs[i] in LockedFiles(cs)
  {
    var init := cs[..|cs| - 1];
    if i < |init| {
      assert init[i] == cs[i];
      LockedFileKept(init, i);
    }
  }

  lemma {:induction false} LockedDirKept(cs: seq<Node>, i: nat)
    requires i < |cs| && cs[i].Dir? && HasLocked(cs[i])
    ensures Emptied(cs[i]) in EmptiedDirs(cs)
  {
    var init := cs[..|cs| - 1];
    if i < |init| {
      assert init[i] == cs[i];
      LockedDirKept(init, i);
    }
  }

  /** `Directory.Delete(dir, true)`: succeeds, removing the whole subtree, unless a
      locked file lies below `dir`; a failing delete removes nothing. */
  method DeleteRecursive(dir: Node) returns (deleted: bool)
    ensures deleted <==> !HasLocked(dir)
  {
    deleted := !HasLocked(dir);
  }

  /** `DeleteDirectoryContents` on the directory `d`: deletes each file, then deletes
      each subdirectory and, when that fails, empties it instead. The directory itself
      is never removed. */
  method DeleteDirectoryContents(d: Node) returns (after: Node)
    requires d.Dir?
    ensures after == Emptied(d)
    decreases d, 1
  {
    var cs := d.children;
    var files: seq<Node> := [];
    var i := 0;
    while i < |cs|
      invariant i <= |cs|
      invariant files == LockedFiles(cs[..i])
    {
      assert cs[..i + 1][..i] == cs[..i];
      if cs[i].File? && cs[i].locked {
        files := files + [cs[i]];
      }
      i := i + 1;
    }
    var dirs: seq<Node> := [];
    i := 0;
    while i < |cs|
      invariant i <= |cs|
      invariant dirs == EmptiedDirs(cs[..i])
    {
      assert cs[..i + 1][..i] == cs[..i];
      var c := cs[i];
      if c.Dir? {
        var deleted := DeleteRecursive(c);
        if !deleted {
          var emptied := DeleteDirectoryContents(c);
          dirs := dirs + [emptied];
        }
      }
      i := i + 1;
    }
    assert cs[..|cs|] == cs;
    after := Dir(d.name, files + dirs);
  }

  // ---------------------------------------------------------------------------
  // The targets of a cleaning task

  /** The paths `DeleteDirectoryTargets` empties: those that are not blank and name an
      existing directory, in the order given. */
  function DirectoryTargets(paths: seq<string>, directories: set<string>): seq<string>
  {
    if paths == [] then []
    else
      var init, p := paths[..|paths| - 1], paths[|paths| - 1];
      DirectoryTargets(init, directories) + (if !IsBlank(p) && p in directories then [p] else [])
  }

  /** A path is emptied exactly when it is one of the given paths, is not blank and
      names an existing directory. */
  lemma {:induction false} DirectoryTargetsMembers(paths: seq<string>, directories: set<string>, p: string)
    ensures p in DirectoryTargets(paths, directories) <==> p in paths && !IsBlank(p) && p in directories
  {
    if paths != [] {
      var init := paths[..|paths| - 1];
      DirectoryTargetsMembers(init, directories, p);
      assert paths == init + [paths[|paths| - 1]];
    }
  }

  /** `DeleteDirectoryTargets`: the paths it calls `DeleteDirectoryContents` on. */
  method DeleteDirectoryTargets(paths: seq<string>, directories: set<string>) returns (emptied: seq<string>)
    ensures emptied == DirectoryTargets(paths, directories)
  {
    emptied := [];
    var i := 0;
    while i < |paths|
      invariant i <= |paths|
      invariant emptied == DirectoryTargets(paths[..i], directories)
    {
      assert paths[..i + 1][..i] == paths[..i];
      var p := paths[i];
      if !IsBlank(p) {
        if p in directories {
          emptied := emptied + [p];
        }
      }
      i := i + 1;
    }
    assert paths[..|paths|] == paths;
  }
}

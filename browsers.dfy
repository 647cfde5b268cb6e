/**
 * Which directories of a Chromium-based browser's user-data root the cleaner treats as
 * profiles (`CleanerOperations.CleanChromiumBasedBrowserRoot`). The profiles are
 * collected in a case-insensitive `HashSet`, modelled as a sequence without two
 * elements equal up to case. What exists on disk is the pair of sets `files` and
 * `directories`.
 */
module ChromiumProfiles {
  import opened Text
  import opened Paths

  const DefaultProfile: string := "Default"
  const GuestProfile: string := "Guest Profile"
  const SystemProfile: string := "System Profile"
  const NumberedProfilePrefix: string := "Profile "

  /** The directory names of user profiles: "Default", "Guest Profile",
      "System Profile" and "Profile <anything>", all in any case. */
  predicate IsUserProfileName(name: string)
  {
    EqualsIgnoreCase(name, DefaultProfile) || EqualsIgnoreCase(name, GuestProfile)
    || EqualsIgnoreCase(name, SystemProfile) || StartsWithIgnoreCase(name, NumberedProfilePrefix)
  }

  /** A profile name starts with a letter, so the loop's skip of blank names never
      drops a profile. */
  lemma ProfileNamesAreNotBlank(name: string)
    requires IsUserProfileName(name)
    ensures !IsBlank(name)
  {
    assert |name| > 0;
    var c := name[0];
    assert 'A' <= ToUpper(c) <= 'Z';
    assert !IsWhiteSpace(c);
  }

  /** `LooksLikeChromiumProfile`: the directory holds one of the files or directories
      a profile has. */
  predicate LooksLikeProfile(path: string, files: set<string>, directories: set<string>)
  {
    Combine(path, "History") in files || Combine(path, "Web Data") in files
    || Combine(path, "Local Storage") in directories || Combine(path, "Session Storage") in directories
    || Combine(path, "Extensions") in directories
  }

  /** A child directory the loop adds: its name is not blank and is a profile name. */
  predicate IsProfileDir(dir: string)
  {
    !IsBlank(FileName(dir)) && IsUserProfileName(FileName(dir))
  }

  /** The profile set after the loop over the child directories `dirs`. */
  function NamedProfiles(dirs: seq<string>): seq<string>
  {
    if dirs == [] then []
    else
      var init, dir := dirs[..|dirs| - 1], dirs[|dirs| - 1];
      if IsProfileDir(dir) then AddIgnoreCase(NamedProfiles(init), dir) else NamedProfiles(init)
  }

  /** The profiles cleaned under `root`: none when it does not exist; otherwise the
      named profiles, and the root itself when it looks like a profile or no named
      profile was found. */
  function Profiles(root: string, dirs: seq<string>, files: set<string>, directories: set<string>): seq<string>
  {
    if root !in directories then []
    else
      var named := NamedProfiles(dirs);
      if LooksLikeProfile(root, files, directories) || |named| == 0 then AddIgnoreCase(named, root) else named
  }

  /** The loop collects each profile directory once, up to case, and nothing else. */
  lemma NamedProfilesShape(dirs: seq<string>)
    ensures DistinctIgnoreCase(NamedProfiles(dirs))
    ensures forall p :: p in NamedProfiles(dirs) ==> p in dirs && IsProfileDir(p)
    ensures forall i :: 0 <= i < |dirs| && IsProfileDir(dirs[i]) ==> ContainsIgnoreCase(NamedProfiles(dirs), dirs[i])
  {
    NamedProfilesSound(dirs);
    forall i | 0 <= i < |dirs| && IsProfileDir(dirs[i])
      ensures ContainsIgnoreCase(NamedProfiles(dirs), dirs[i])
    {
      NamedProfilesComplete(dirs, i);
    }
  }

  /** What the loop collects are distinct profile directories. */
  lemma {:induction false} NamedProfilesSound(dirs: seq<string>)
    ensures DistinctIgnoreCase(NamedProfiles(dirs))
    ensures forall p :: p in NamedProfiles(dirs) ==> p in dirs && IsProfileDir(p)
  {
    if dirs != [] {
      var init, dir := dirs[..|dirs| - 1], dirs[|dirs| - 1];
      NamedProfilesSound(init);
      if IsProfileDir(dir) {
        AddIgnoreCaseShape(NamedProfiles(init), dir);
      }
      assert forall p :: p in init ==> p in dirs;
    }
  }

  /** Once the loop has passed a profile directory, the set holds it up to case. */
  lemma {:induction false} NamedProfilesComplete(dirs: seq<string>, i: nat)
    requires i < |dirs| && IsProfileDir(dirs[i])
    ensures ContainsIgnoreCase(NamedProfiles(dirs), dirs[i])
  {
    var init, dir := dirs[..|dirs| - 1], dirs[|dirs| - 1];
    var before := NamedProfiles(init);
    if i < |init| {
      assert init[i] == dirs[i];
      NamedProfilesComplete(init, i);
      if IsProfileDir(dir) {
        AddIgnoreCaseKeeps(before, dir, dirs[i]);
      }
    } else {
      AddIgnoreCaseShape(before, dir);
    }
  }

  /** The profile set of an existing root is never empty, has no two entries equal up
      to case, and holds every profile directory. It holds the root when the root looks
      like a profile or no child is a profile; otherwise it holds only profile
      directories. */
  lemma ProfilesShape(root: string, dirs: seq<string>, files: set<string>, directories: set<string>)
    requires root in directories
    ensures var ps := Profiles(root, dirs, files, directories);
      && |ps| > 0
      && DistinctIgnoreCase(ps)
      && (forall i :: 0 <= i < |dirs| && IsProfileDir(dirs[i]) ==> ContainsIgnoreCase(ps, dirs[i]))
      && ((LooksLikeProfile(root, files, directories) || (forall d :: d in dirs ==> !IsProfileDir(d)))
          ==> ContainsIgnoreCase(ps, root))
      && (forall p :: p in ps ==> (p in dirs && IsProfileDir(p)) || p == root)
      && ((!LooksLikeProfile(root, files, directories) && (exists i :: 0 <= i < |dirs| && IsProfileDir(dirs[i])))
          ==> forall p :: p in ps ==> p in dirs && IsProfileDir(p))
  {
    var named := NamedProfiles(dirs);
    var ps := Profiles(root, dirs, files, directories);
    NamedProfilesShape(dirs);
    AddIgnoreCaseShape(named, root);
    if named != [] {
      assert named[0] in named;
    }
    forall i | 0 <= i < |dirs| && IsProfileDir(dirs[i])
      ensures ContainsIgnoreCase(ps, dirs[i]) && named != []
    {
      if ps != named {
        AddIgnoreCaseKeeps(named, root, dirs[i]);
      }
    }
  }

  /** `CleanChromiumBasedBrowserRoot` up to the cleaning of each profile: collects the
      profile set of `userDataRoot`, whose child directories are `dirs`. */
  method SelectProfiles(userDataRoot: string, dirs: seq<string>, files: set<string>, directories: set<string>)
    returns (profiles: seq<string>)
    ensures profiles == Profiles(userDataRoot, dirs, files, directories)
  {
    if userDataRoot !in directories {
      return [];
    }
    profiles := [];
    var i := 0;
    while i < |dirs|
      invariant i <= |dirs|
      invariant profiles == NamedProfiles(dirs[..i])
    {
      var dir := dirs[i];
      assert dirs[..i + 1][..i] == dirs[..i];
      var name := FileName(dir);
      if !IsBlank(name) {
        if IsUserProfileName(name) {
          profiles := AddIgnoreCase(profiles, dir);
        }
      }
      i := i + 1;
    }
    assert dirs[..|dirs|] == dirs;
    if LooksLikeProfile(userDataRoot, files, directories) || |profiles| == 0 {
      profiles := AddIgnoreCase(profiles, userDataRoot);
    }
  }
}

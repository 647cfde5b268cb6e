/**
 * The two `System.IO.Path` operations the cleaner's tree walks rely on: `Combine`,
 * which joins a directory path and an entry name, and `GetFileName`, which takes the
 * last component of a path back out.
 */
module Paths {

  const Separator: char := '\\'

  /** The directory separators of Windows paths. */
  predicate IsSeparator(c: char)
  {
    c == '\\' || c == '/'
  }

  predicate HasNoSeparator(name: string)
  {
    forall i :: 0 <= i < |name| ==> !IsSeparator(name[i])
  }

  /** `Path.Combine(dir, name)` for a name that is not rooted: the name alone after an
      empty directory, no extra separator when one side already has one, and a
      backslash between them otherwise. */
  function Combine(dir: string, name: string): (p: string)
  {
    if dir == [] then name
    else if name == [] then dir
    else if IsSeparator(dir[|dir| - 1]) || IsSeparator(name[0]) then dir + name
    else dir + [Separator] + name
  }

  /** The position of the last separator of `p` strictly before `end`, or -1. */
  function LastSeparator(p: string, end: nat): (i: int)
    requires end <= |p|
    ensures -1 <= i < end
    ensures i >= 0 ==> IsSeparator(p[i])
    ensures forall k :: i < k < end ==> !IsSeparator(p[k])
  {
    if end == 0 then -1
    else if IsSeparator(p[end - 1]) then end - 1
    else LastSeparator(p, end - 1)
  }

  /** `Path.GetFileName(p)`: what follows the last separator, or the whole path. */
  function FileName(p: string): (name: string)
  {
    p[LastSeparator(p, |p|) + 1..]
  }

  /** The file name is a suffix of the path and holds no separator. */
  lemma FileNameShape(p: string)
    ensures |FileName(p)| <= |p| && FileName(p) == p[|p| - |FileName(p)|..]
    ensures HasNoSeparator(FileName(p))
  {
    var i := LastSeparator(p, |p|);
    forall k | 0 <= k < |FileName(p)|
      ensures !IsSeparator(FileName(p)[k])
    {
      assert FileName(p)[k] == p[i + 1 + k];
    }
  }

  /** Taking the file name of a combined path gives back the entry name. */
  lemma FileNameOfCombine(dir: string, name: string)
    requires name != [] && HasNoSeparator(name)
    ensures FileName(Combine(dir, name)) == name
  {
    var p := Combine(dir, name);
    var start := |p| - |name|;
    assert p[start..] == name;
    if start > 0 {
      assert IsSeparator(p[start - 1]);
    }
    FileNameFrom(p, start);
  }

  /** When the path ends with a separator-free run that starts at `start` just after a
      separator (or at 0), that run is the file name. */
  lemma FileNameFrom(p: string, start: nat)
    requires start <= |p|
    requires start == 0 || IsSeparator(p[start - 1])
    requires forall k :: start <= k < |p| ==> !IsSeparator(p[k])
    ensures FileName(p) == p[start..]
  {
    var i := LastSeparator(p, |p|);
    if start > 0 {
      assert i >= start - 1;
    }
  }
}

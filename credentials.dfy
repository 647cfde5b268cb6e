/**
 * The parsing of `cmdkey /list` output in `CleanerOperations.ClearStoredWindowsCredentials`:
 * every "Target:" line names a stored credential, the targets are collected in a
 * case-insensitive set, and one `cmdkey /delete:<target>` is issued per target. The
 * output of `cmdkey /list` is a parameter; the delete commands are returned as the
 * argument strings passed to `cmdkey.exe`.
 */
module Credentials {
  import opened Wrappers
  import opened Text

  const TargetPrefix: string := "Target:"
  const CmdKey: string := "cmdkey.exe"
  const DeleteSwitch: string := "/delete:"

  /** The target a line names: the trimmed text after "Target:" (any case) on a
      trimmed line, unless that text is blank. */
  function TargetOf(line: string): Option<string>
  {
    var trimmed := Trim(line);
    if !StartsWithIgnoreCase(trimmed, TargetPrefix) then None
    else
      var target := Trim(trimmed[|TargetPrefix|..]);
      if IsBlank(target) then None else Some(target)
  }

  /** The target set after the loop over `lines`. */
  function CollectTargets(lines: seq<string>): seq<string>
  {
    if lines == [] then []
    else
      var init, line := lines[..|lines| - 1], lines[|lines| - 1];
      match TargetOf(line)
      case None => CollectTargets(init)
      case Some(t) => AddIgnoreCase(CollectTargets(init), t)
  }

  /** The targets found in `cmdkey /list` output. */
  function Targets(output: string): seq<string>
  {
    CollectTargets(Lines(output))
  }

  /** A target is never blank and carries no white space at either end. */
  lemma TargetIsTrimmed(line: string)
    requires TargetOf(line).Some?
    ensures var t := TargetOf(line).value;
      !IsBlank(t) && !IsWhiteSpace(t[0]) && !IsWhiteSpace(t[|t| - 1])
  {
    var trimmed := Trim(line);
    var rest := trimmed[|TargetPrefix|..];
    BlankIffTrimEmpty(rest);
    TrimIsSlice(rest);
  }

  /** Every collected target is the target of one of the lines, and no two collected
      targets are equal up to case. */
  lemma {:induction false} CollectTargetsSound(lines: seq<string>)
    ensures DistinctIgnoreCase(CollectTargets(lines))
    ensures forall t :: t in CollectTargets(lines) ==> exists i :: 0 <= i < |lines| && TargetOf(lines[i]) == Some(t)
  {
    if lines != [] {
      var init, line := lines[..|lines| - 1], lines[|lines| - 1];
      CollectTargetsSound(init);
      if TargetOf(line).Some? {
        AddIgnoreCaseShape(CollectTargets(init), TargetOf(line).value);
      }
      forall t | t in CollectTargets(lines)
        ensures exists i :: 0 <= i < |lines| && TargetOf(lines[i]) == Some(t)
      {
        if t in CollectTargets(init) {
          var i :| 0 <= i < |init| && TargetOf(init[i]) == Some(t);
          assert lines[i] == init[i];
        } else {
          assert TargetOf(lines[|lines| - 1]) == Some(t);
        }
      }
    }
  }

  /** The target of every line is collected, up to case. */
  lemma {:induction false} CollectTargetsComplete(lines: seq<string>, i: nat)
    requires i < |lines| && TargetOf(lines[i]).Some?
    ensures ContainsIgnoreCase(CollectTargets(lines), TargetOf(lines[i]).value)
  {
    var init, line := lines[..|lines| - 1], lines[|lines| - 1];
    var before := CollectTargets(init);
    if i < |init| {
      assert init[i] == lines[i];
      CollectTargetsComplete(init, i);
      if TargetOf(line).Some? {
        AddIgnoreCaseKeeps(before, TargetOf(line).value, TargetOf(lines[i]).value);
      }
    } else {
      AddIgnoreCaseShape(before, TargetOf(line).value);
    }
  }

  /** Every maximal run of the output without line breaks that names a target
      contributes it. */
  lemma TargetLineIsCollected(output: string, a: nat, b: nat)
    requires a < b <= |output|
    requires a == 0 || IsLineBreak(output[a - 1])
    requires b == |output| || IsLineBreak(output[b])
    requires NoLineBreak(output[a..b])
    requires TargetOf(output[a..b]).Some?
    ensures ContainsIgnoreCase(Targets(output), TargetOf(output[a..b]).value)
  {
    LineIsPiece(output, a, b);
    var lines := Lines(output);
    var i :| 0 <= i < |lines| && lines[i] == output[a..b];
    CollectTargetsComplete(lines, i);
  }

  /** The loop over the lines of the output, adding each line's target. */
  method ParseTargets(output: string) returns (targets: seq<string>)
    ensures targets == Targets(output)
  {
    var lines := Lines(output);
    targets := [];
    var i := 0;
    while i < |lines|
      invariant i <= |lines|
      invariant targets == CollectTargets(lines[..i])
    {
      var line := lines[i];
      assert lines[..i + 1][..i] == lines[..i];
      var trimmed := Trim(line);
      if StartsWithIgnoreCase(trimmed, TargetPrefix) {
        var target := Trim(trimmed[|TargetPrefix|..]);
        if !IsBlank(target) {
          targets := AddIgnoreCase(targets, target);
        }
      }
      i := i + 1;
    }
    assert lines[..|lines|] == lines;
  }

  /** The arguments of the `cmdkey.exe` runs: one "/delete:<target>" per target, in
      the order given. */
  method DeleteArguments(targets: seq<string>) returns (args: seq<string>)
    ensures |args| == |targets|
    ensures forall i :: 0 <= i < |targets| ==> args[i] == DeleteSwitch + targets[i]
  {
    args := [];
    var i := 0;
    while i < |targets|
      invariant i <= |targets| && |args| == i
      invariant forall k :: 0 <= k < i ==> args[k] == DeleteSwitch + targets[k]
    {
      args := args + [DeleteSwitch + targets[i]];
      i := i + 1;
    }
  }

  /** `ClearStoredWindowsCredentials` after `cmdkey /list` has run: one delete per
      distinct target of the output. */
  method ClearStoredCredentials(output: string) returns (args: seq<string>)
    ensures |args| == |Targets(output)|
    ensures forall i :: 0 <= i < |args| ==> args[i] == DeleteSwitch + Targets(output)[i]
  {
    var targets := ParseTargets(output);
    args := DeleteArguments(targets);
  }
}

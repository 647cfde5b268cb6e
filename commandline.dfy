/**
 * Extraction of the executable path from a registry command line
 * (`CleanerOperations.ExtractExecutablePath`). Run-key values and
 * `UninstallString` values hold command lines such as
 * `"C:\Program Files\App\app.exe" /background` or `C:\Tools\tool.exe -q`;
 * the cleaner keeps only the file part and later asks whether that file exists.
 */
module CommandLine {
  import opened Text

  const Quote: char := '"'
  const Space: char := ' '
  const ExeExtension: string := ".exe"

  /** The first token of a trimmed command: everything before the first space
      (a space at index 0 does not count), or the whole string. */
  function FirstToken(trimmed: string): (r: string)
  {
    var space := IndexOfChar(trimmed, Space, 0);
    if space > 0 then trimmed[..space] else trimmed
  }

  /** The unquoted rule: the first token, cut just after its first ".exe" (any case). */
  function UnquotedPath(trimmed: string): (r: string)
  {
    UnquotedCut(FirstToken(trimmed))
  }

  /** A token cut just after its first ".exe" (any case), or the token itself. */
  function UnquotedCut(candidate: string): (r: string)
  {
    var exeIndex := IndexOfIgnoreCase(candidate, ExeExtension, 0);
    if exeIndex >= 0 then candidate[..exeIndex + |ExeExtension|] else candidate
  }

  /** `ExtractExecutablePath(command)`: "" for a blank command; the text between the
      quotes when the trimmed command starts with a quote whose partner is found at
      index 2 or later; the unquoted rule otherwise. */
  function ExtractExecutablePath(command: string): (r: string)
  {
    if IsBlank(command) then ""
    else
      var trimmed := Trim(command);
      var endQuote := if |trimmed| > 0 && trimmed[0] == Quote then IndexOfChar(trimmed, Quote, 1) else -1;
      if endQuote > 1 then trimmed[1..endQuote]
      else UnquotedPath(trimmed)
  }

  /** A trimmed command in quoted form: an opening quote, at least one character that is
      not a quote, and a closing quote somewhere after it. */
  predicate QuotedForm(t: string)
  {
    |t| >= 3 && t[0] == Quote && t[1] != Quote && Quote in t[2..]
  }

  /** "ExeAt(s, i)": ".exe", in any case, starts at position i of s. */
  predicate ExeAt(s: string, i: nat)
  {
    i + |ExeExtension| <= |s| && StartsWithIgnoreCase(s[i..], ExeExtension)
  }

  /** The result is empty exactly for a blank command, so the cleaner's separate
      "non-empty path" test never rejects what the "non-blank data" test admitted. */
  lemma EmptyIffBlank(command: string)
    ensures ExtractExecutablePath(command) == [] <==> IsBlank(command)
  {
    if !IsBlank(command) {
      var t := Trim(command);
      BlankIffTrimEmpty(command);
      assert t != [];
      var endQuote := if t[0] == Quote then IndexOfChar(t, Quote, 1) else -1;
      if endQuote <= 1 {
        var space := IndexOfChar(t, Space, 0);
        TrimIsSlice(command);
        assert !IsWhiteSpace(t[0]);
        assert space != 0;
        assert FirstToken(t) != [];
      }
    }
  }

  /** A quoted command yields exactly the text between the opening quote and the first
      closing quote, which is non-empty and holds no quote. */
  lemma {:induction false} QuotedPathIsBetweenQuotes(command: string, e: nat)
    requires QuotedForm(Trim(command))
    requires 1 < e < |Trim(command)| && Trim(command)[e] == Quote
    requires forall i :: 1 <= i < e ==> Trim(command)[i] != Quote
    ensures ExtractExecutablePath(command) == Trim(command)[1..e]
    ensures ExtractExecutablePath(command) != [] && Quote !in ExtractExecutablePath(command)
  {
    var t := Trim(command);
    BlankIffTrimEmpty(command);
    assert !IsBlank(command);
    var endQuote := IndexOfChar(t, Quote, 1);
    assert endQuote == e;
  }

  /** Every trimmed command in quoted form has such a first closing quote. */
  lemma QuotedFormHasClosingQuote(t: string)
    requires QuotedForm(t)
    ensures IndexOfChar(t, Quote, 1) > 1
  {
    var k :| 0 <= k < |t[2..]| && t[2..][k] == Quote;
    assert t[k + 2] == Quote;
  }

  /** A non-blank command that is not in quoted form goes through the unquoted rule. */
  lemma NotQuotedTakesUnquotedRule(command: string)
    requires !IsBlank(command) && !QuotedForm(Trim(command))
    ensures ExtractExecutablePath(command) == UnquotedPath(Trim(command))
    ensures Trim(command) != [] && !IsWhiteSpace(Trim(command)[0])
  {
    var t := Trim(command);
    BlankIffTrimEmpty(command);
    TrimIsSlice(command);
    var endQuote := if t[0] == Quote then IndexOfChar(t, Quote, 1) else -1;
    if endQuote > 1 {
      assert false;
    }
  }

  /** The first token of a trimmed command is a non-empty prefix without spaces that
      stops at a space or at the end. */
  lemma FirstTokenShape(t: string)
    requires t != [] && t[0] != Space
    ensures var tok := FirstToken(t);
      && tok != [] && |tok| <= |t| && tok == t[..|tok|] && Space !in tok
      && (|tok| < |t| ==> t[|tok|] == Space)
  {
    var space := IndexOfChar(t, Space, 0);
    if space > 0 {
      var tok := t[..space];
      assert forall i :: 0 <= i < space ==> tok[i] == t[i];
    }
  }

  /** Cutting a token after its first ".exe" leaves a prefix without any earlier ".exe";
      the prefix is shorter than the token only when it ends in ".exe". */
  lemma {:induction false} ExeCutShape(candidate: string)
    ensures var r := UnquotedCut(candidate);
      && |r| <= |candidate| && r == candidate[..|r|]
      && (|r| < |candidate| ==> |r| >= 4 && ExeAt(r, |r| - 4))
      && (forall i :: 0 <= i < |r| - 4 ==> !ExeAt(r, i))
      && (|candidate| >= 1 ==> |r| >= 1)
  {
    var exeIndex := IndexOfIgnoreCase(candidate, ExeExtension, 0);
    if exeIndex >= 0 {
      var r := candidate[..exeIndex + 4];
      assert r[exeIndex..] == candidate[exeIndex..][..4];
      assert ExeAt(r, |r| - 4);
      forall i | 0 <= i < |r| - 4
        ensures !ExeAt(r, i)
      {
        assert r[i..][..4] == candidate[i..][..4];
      }
    }
  }

  /** Otherwise the unquoted rule applies: the result is a non-empty prefix of the trimmed
      command without spaces, it either stops at a space or just after ".exe", and it
      holds no earlier ".exe". These facts determine it uniquely. */
  lemma UnquotedPathShape(command: string)
    requires !IsBlank(command) && !QuotedForm(Trim(command))
    ensures var t, r := Trim(command), ExtractExecutablePath(command);
      && r != [] && |r| <= |t| && r == t[..|r|]
      && Space !in r
      && (|r| < |t| ==> t[|r|] == Space || (|r| >= 4 && ExeAt(r, |r| - 4)))
      && (forall i :: 0 <= i < |r| - 4 ==> !ExeAt(r, i))
  {
    var t := Trim(command);
    NotQuotedTakesUnquotedRule(command);
    FirstTokenShape(t);
    var tok := FirstToken(t);
    ExeCutShape(tok);
    var r := UnquotedCut(tok);
    assert r == tok[..|r|];
    assert Space !in r by {
      assert forall i :: 0 <= i < |r| ==> r[i] == tok[i];
    }
  }

  /** An unquoted command whose first space comes before any ".exe" is cut at that
      space: `C:\My Apps\app.exe -q` is looked up as `C:\My`, so a Run entry for a
      program under a folder with a space in its name must be quoted to survive. */
  lemma {:induction false} UnquotedPathStopsAtSpace(command: string, k: nat)
    requires !IsBlank(command) && !QuotedForm(Trim(command))
    requires k < |Trim(command)| && Trim(command)[k] == Space
    requires forall i :: 0 <= i < k ==> Trim(command)[i] != Space
    requires forall i :: 0 <= i <= k - 4 ==> !ExeAt(Trim(command)[..k], i)
    ensures ExtractExecutablePath(command) == Trim(command)[..k]
  {
    var t, r := Trim(command), ExtractExecutablePath(command);
    UnquotedPathShape(command);
    // a longer result would hold the space at k; a shorter one would end in a ".exe"
    // lying before that space
    assert forall i :: 0 <= i < |r| ==> r[i] == t[i];
    assert |r| <= k;
    ExeAtExtends(r, t[..k]);
  }

  /** A ".exe" found in a prefix is found at the same place in the whole string. */
  lemma ExeAtExtends(p: string, s: string)
    requires |p| <= |s| && p == s[..|p|]
    ensures forall i: nat :: ExeAt(p, i) ==> ExeAt(s, i)
  {
    forall i: nat | ExeAt(p, i)
      ensures ExeAt(s, i)
    {
      assert p[i..][..4] == s[i..][..4];
    }
  }
}

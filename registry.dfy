/**
 * The registry rules of `CleanerOperations`: which run-key values, MRU values,
 * uninstall entries, file-extension associations, shared-DLL references and COM
 * registrations the cleaner deletes. A key is a `RegistryKey` object whose value and
 * subkey maps the cleaning methods update in place; whether a file exists is the set
 * `files` of existing paths.
 */
module RegistryCleanup {
  import opened Wrappers
  import opened Text
  import opened CommandLine

  /** A key as a value: its values (name to data, as `ToString` renders it) and its
      subkeys by name. */
  datatype KeyData = KeyData(values: map<string, string>, subKeys: map<string, KeyData>)

  /** The name of a key's unnamed (default) value. */
  const DefaultValue: string := ""
  const MruListName: string := "MRUList"
  const UninstallStringName: string := "UninstallString"
  const InprocServerName: string := "InprocServer32"

  // ---------------------------------------------------------------------------
  // The deletion rules

  /** `CleanRunKey` and `CleanUninstallEntriesAsync`: a command is stale when it is not
      blank, names a program, and that program does not exist. */
  predicate NamesMissingProgram(command: string, files: set<string>)
  {
    !IsBlank(command) && ExtractExecutablePath(command) != [] && ExtractExecutablePath(command) !in files
  }

  /** The separate test for an empty path never decides anything: a non-blank command
      always names a program, so a command is stale exactly when it is not blank and
      the extracted file is missing. */
  lemma StaleIffProgramMissing(command: string, files: set<string>)
    ensures NamesMissingProgram(command, files)
            <==> !IsBlank(command) && ExtractExecutablePath(command) !in files
  {
    EmptyIffBlank(command);
  }

  /** A quoted command whose program exists is never stale, whatever follows the
      closing quote. */
  lemma ExistingQuotedProgramIsKept(command: string, e: nat, files: set<string>)
    requires QuotedForm(Trim(command))
    requires 1 < e < |Trim(command)| && Trim(command)[e] == Quote
    requires forall i :: 1 <= i < e ==> Trim(command)[i] != Quote
    requires Trim(command)[1..e] in files
    ensures !NamesMissingProgram(command, files)
  {
    QuotedPathIsBetweenQuotes(command, e);
  }

  /** The run-key values `CleanRunKey` deletes. */
  function StaleRunValues(values: map<string, string>, files: set<string>): set<string>
  {
    set n | n in values && NamesMissingProgram(values[n], files)
  }

  /** The values the MRU clearing deletes: all but those named "MRUList" in any case. */
  function MruValuesToDelete(values: map<string, string>): set<string>
  {
    set n | n in values && !EqualsIgnoreCase(n, MruListName)
  }

  /** An uninstall entry is stale when its `UninstallString` is present and stale. */
  predicate IsStaleUninstallEntry(app: KeyData, files: set<string>)
  {
    UninstallStringName in app.values && NamesMissingProgram(app.values[UninstallStringName], files)
  }

  /** The uninstall entries `CleanUninstallEntriesAsync` deletes. */
  function StaleUninstallEntries(apps: map<string, KeyData>, files: set<string>): set<string>
  {
    set n | n in apps && IsStaleUninstallEntry(apps[n], files)
  }

  /** The shared-DLL references that name a file that does not exist. */
  function MissingSharedDlls(values: map<string, string>, files: set<string>): set<string>
  {
    set n | n in values && n !in files
  }

  /** A COM class is stale when its `InprocServer32` subkey has a default value that is
      not blank and names, once environment variables are expanded, a missing file. */
  predicate IsStaleComRegistration(clsid: KeyData, files: set<string>, expand: string -> string)
  {
    InprocServerName in clsid.subKeys
    && DefaultValue in clsid.subKeys[InprocServerName].values
    && var path := clsid.subKeys[InprocServerName].values[DefaultValue];
       !IsBlank(path) && expand(path) !in files
  }

  /** The COM classes `CleanCOMRegistrationsAsync` deletes. */
  function StaleComRegistrations(classes: map<string, KeyData>, files: set<string>, expand: string -> string): set<string>
  {
    set n | n in classes && IsStaleComRegistration(classes[n], files, expand)
  }

  /** Subkey names of `Software\Classes` that are file extensions. */
  predicate IsExtensionName(name: string)
  {
    |name| > 0 && name[0] == '.'
  }

  /** The ProgID an extension key points to: its default value, when present. */
  function ProgIdOf(ext: KeyData): Option<string>
  {
    if DefaultValue in ext.values then Some(ext.values[DefaultValue]) else None
  }

  /** An extension key whose ProgID is not blank and names no subkey of `keys`. */
  predicate IsOrphanedExtension(keys: map<string, KeyData>, name: string)
  {
    name in keys && IsExtensionName(name)
    && ProgIdOf(keys[name]).Some? && !IsBlank(ProgIdOf(keys[name]).value)
    && ProgIdOf(keys[name]).value !in keys
  }

  /** One turn of the extension loop: the key is deleted when it is orphaned now. */
  function ExtensionStep(keys: map<string, KeyData>, name: string): map<string, KeyData>
  {
    if IsOrphanedExtension(keys, name) then keys - {name} else keys
  }

  /** The extension loop over the subkey names in the order the registry lists them;
      each turn sees the deletions of the turns before it. */
  function ExtensionPass(keys: map<string, KeyData>, order: seq<string>): map<string, KeyData>
  {
    if order == [] then keys
    else ExtensionStep(ExtensionPass(keys, order[..|order| - 1]), order[|order| - 1])
  }

  /** The orphaned extension keys of `keys`, judged all against `keys` itself. */
  function OrphanedExtensions(keys: map<string, KeyData>): set<string>
  {
    set n | n in keys && IsOrphanedExtension(keys, n)
  }

  /** The extension loop only deletes, only deletes extension keys, and leaves every
      remaining key as it was. */
  lemma {:induction false} ExtensionPassOnlyDeletesExtensions(keys: map<string, KeyData>, order: seq<string>)
    ensures ExtensionPass(keys, order).Keys <= keys.Keys
    ensures forall n :: n in ExtensionPass(keys, order) ==> ExtensionPass(keys, order)[n] == keys[n]
    ensures forall n :: n in keys && !IsExtensionName(n) ==> n in ExtensionPass(keys, order)
  {
    if order != [] {
      ExtensionPassOnlyDeletesExtensions(keys, order[..|order| - 1]);
    }
  }

  /** Every extension key the loop deletes had a ProgID that is not blank, and that
      ProgID names no key at the end of the loop. */
  lemma {:induction false} ExtensionPassDeletesOnlyOrphans(keys: map<string, KeyData>, order: seq<string>, name: string)
    requires name in keys && name !in ExtensionPass(keys, order)
    ensures IsExtensionName(name)
    ensures ProgIdOf(keys[name]).Some? && !IsBlank(ProgIdOf(keys[name]).value)
    ensures ProgIdOf(keys[name]).value !in ExtensionPass(keys, order)
  {
    var before := ExtensionPass(keys, order[..|order| - 1]);
    ExtensionPassOnlyDeletesExtensions(keys, order[..|order| - 1]);
    if name !in before {
      ExtensionPassDeletesOnlyOrphans(keys, order[..|order| - 1], name);
    }
  }

  /** Whatever the listing order, an extension orphaned at the start of the loop is
      gone at its end once the loop has visited it: deletions never give it back the
      key its ProgID names. */
  lemma {:induction false} ExtensionPassDeletesVisitedOrphans(keys: map<string, KeyData>, order: seq<string>,
                                                              name: string)
    requires IsOrphanedExtension(keys, name) && name in order
    ensures name !in ExtensionPass(keys, order)
  {
    var init, last := order[..|order| - 1], order[|order| - 1];
    var before := ExtensionPass(keys, init);
    ExtensionPassOnlyDeletesExtensions(keys, init);
    if name in init {
      ExtensionPassDeletesVisitedOrphans(keys, init, name);
    } else {
      assert order == init + [last];
      assert last == name;
      if name in before {
        assert before[name] == keys[name];
        assert IsOrphanedExtension(before, name);
      }
    }
  }

  /** When no ProgID names an extension key, deleting one key never orphans another, so
      the order does not matter: a key is deleted exactly when it is orphaned at the
      start. */
  lemma ExtensionPassIsOrderFree(keys: map<string, KeyData>, order: seq<string>)
    requires forall n :: n in keys && ProgIdOf(keys[n]).Some? ==> !IsExtensionName(ProgIdOf(keys[n]).value)
    requires forall n :: n in keys ==> n in order
    ensures ExtensionPass(keys, order) == keys - OrphanedExtensions(keys)
  {
    ExtensionPassPrefix(keys, order);
    assert OrphanedExtensions(keys) * (set x | x in order) == OrphanedExtensions(keys);
  }

  /** After a prefix of the loop, exactly the orphans visited so far are deleted. */
  lemma {:induction false} ExtensionPassPrefix(keys: map<string, KeyData>, order: seq<string>)
    requires forall n :: n in keys && ProgIdOf(keys[n]).Some? ==> !IsExtensionName(ProgIdOf(keys[n]).value)
    ensures ExtensionPass(keys, order)
            == keys - (OrphanedExtensions(keys) * (set x | x in order))
  {
    var orphans := OrphanedExtensions(keys);
    if order != [] {
      var init, name := order[..|order| - 1], order[|order| - 1];
      ExtensionPassPrefix(keys, init);
      var visitedBefore := set x | x in init;
      assert order == init + [name];
      assert (set x | x in order) == visitedBefore + {name};
      var before := keys - (orphans * visitedBefore);
      if name in before {
        assert before[name] == keys[name];
        if ProgIdOf(keys[name]).Some? {
          var p := ProgIdOf(keys[name]).value;
          assert !IsExtensionName(p);
          assert p in before <==> p in keys;
        }
        assert IsOrphanedExtension(before, name) <==> name in orphans;
      }
    }
  }

  /** One turn of a loop that deletes the doomed names among those it has visited:
      visiting `name` deletes it when it is doomed and changes nothing otherwise. */
  lemma PruneStep<V>(start: map<string, V>, doomed: set<string>, pending: set<string>, name: string)
    requires name in pending
    ensures name in doomed ==> start - (doomed - (pending - {name})) == (start - (doomed - pending)) - {name}
    ensures name !in doomed ==> start - (doomed - (pending - {name})) == start - (doomed - pending)
  {
  }

  // ---------------------------------------------------------------------------
  // The keys

  class RegistryKey {
    var values: map<string, string>
    var subKeys: map<string, KeyData>

    constructor (values0: map<string, string>, subKeys0: map<string, KeyData>)
      ensures values == values0 && subKeys == subKeys0
    {
      values := values0;
      subKeys := subKeys0;
    }

    /** `DeleteValue`. */
    method DeleteValue(name: string)
      modifies this`values
      ensures values == old(values) - {name}
    {
      values := values - {name};
    }

    /** `DeleteSubKeyTree`: the subkey goes with everything below it. */
    method DeleteSubKeyTree(name: string)
      modifies this`subKeys
      ensures subKeys == old(subKeys) - {name}
    {
      subKeys := subKeys - {name};
    }

    /** `CleanRunKey`: deletes exactly the values whose command names a missing
        program; every other value keeps its data. */
    method CleanRunKey(files: set<string>)
      modifies this`values
      ensures values == old(values) - StaleRunValues(old(values), files)
    {
      ghost var start := values;
      ghost var doomed := StaleRunValues(start, files);
      var pending := values.Keys;
      while pending != {}
        invariant pending <= start.Keys
        invariant values == start - (doomed - pending)
        decreases |pending|
      {
        var name :| name in pending;
        PruneStep(start, doomed, pending, name);
        var data := values[name];
        if !IsBlank(data) {
          var exe := ExtractExecutablePath(data);
          if exe != [] && exe !in files {
            DeleteValue(name);
          }
        }
        pending := pending - {name};
      }
    }

    /** The MRU clearing: deletes every value except those named "MRUList" in any
        case. */
    method ClearMruValues()
      modifies this`values
      ensures values == old(values) - MruValuesToDelete(old(values))
    {
      ghost var start := values;
      ghost var doomed := MruValuesToDelete(start);
      var pending := values.Keys;
      while pending != {}
        invariant pending <= start.Keys
        invariant values == start - (doomed - pending)
        decreases |pending|
      {
        var name :| name in pending;
        PruneStep(start, doomed, pending, name);
        if !EqualsIgnoreCase(name, MruListName) {
          DeleteValue(name);
        }
        pending := pending - {name};
      }
    }

    /** `CleanUninstallEntriesAsync` on one uninstall key: deletes exactly the entries
        whose `UninstallString` names a missing program. */
    method CleanUninstallEntries(files: set<string>)
      modifies this`subKeys
      ensures subKeys == old(subKeys) - StaleUninstallEntries(old(subKeys), files)
    {
      ghost var start := subKeys;
      ghost var doomed := StaleUninstallEntries(start, files);
      var pending := subKeys.Keys;
      while pending != {}
        invariant pending <= start.Keys
        invariant subKeys == start - (doomed - pending)
        decreases |pending|
      {
        var name :| name in pending;
        PruneStep(start, doomed, pending, name);
        var app := subKeys[name];
        if UninstallStringName in app.values {
          var uninstallString := app.values[UninstallStringName];
          if !IsBlank(uninstallString) {
            var exe := ExtractExecutablePath(uninstallString);
            if exe != [] && exe !in files {
              DeleteSubKeyTree(name);
            }
          }
        }
        pending := pending - {name};
      }
    }

    /** `CleanFileExtensionAssociationsAsync` on `Software\Classes`, visiting the
        subkeys in `order`, the order the registry lists them in. */
    method CleanFileExtensionAssociations(order: seq<string>)
      requires forall n :: n in subKeys ==> n in order
      requires forall i :: 0 <= i < |order| ==> order[i] in subKeys
      modifies this`subKeys
      ensures subKeys == ExtensionPass(old(subKeys), order)
    {
      ghost var start := subKeys;
      var i := 0;
      while i < |order|
        invariant i <= |order|
        invariant subKeys == ExtensionPass(start, order[..i])
      {
        var name := order[i];
        assert order[..i + 1][..i] == order[..i];
        if IsExtensionName(name) && name in subKeys {
          var ext := subKeys[name];
          if DefaultValue in ext.values {
            var progId := ext.values[DefaultValue];
            if !IsBlank(progId) && progId !in subKeys {
              DeleteSubKeyTree(name);
            }
          }
        }
        i := i + 1;
      }
      assert order[..|order|] == order;
    }

    /** `CleanSharedDLLsAsync`: deletes exactly the references to missing files. */
    method CleanSharedDlls(files: set<string>)
      modifies this`values
      ensures values == old(values) - MissingSharedDlls(old(values), files)
    {
      ghost var start := values;
      ghost var doomed := MissingSharedDlls(start, files);
      var pending := values.Keys;
      while pending != {}
        invariant pending <= start.Keys
        invariant values == start - (doomed - pending)
        decreases |pending|
      {
        var name :| name in pending;
        PruneStep(start, doomed, pending, name);
        if name !in files {
          DeleteValue(name);
        }
        pending := pending - {name};
      }
    }

    /** `CleanCOMRegistrationsAsync` on `CLSID`: deletes exactly the classes whose
        in-process server names a missing file. */
    method CleanComRegistrations(files: set<string>, expand: string -> string)
      modifies this`subKeys
      ensures subKeys == old(subKeys) - StaleComRegistrations(old(subKeys), files, expand)
    {
      ghost var start := subKeys;
      ghost var doomed := StaleComRegistrations(start, files, expand);
      var pending := subKeys.Keys;
      while pending != {}
        invariant pending <= start.Keys
        invariant subKeys == start - (doomed - pending)
        decreases |pending|
      {
        var name :| name in pending;
        PruneStep(start, doomed, pending, name);
        var classKey := subKeys[name];
        if InprocServerName in classKey.subKeys {
          var server := classKey.subKeys[InprocServerName];
          if DefaultValue in server.values {
            var path := server.values[DefaultValue];
            if !IsBlank(path) && expand(path) !in files {
              DeleteSubKeyTree(name);
            }
          }
        }
        pending := pending - {name};
      }
    }
  }
}

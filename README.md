# SystemCleaner core in Dafny

SystemCleaner is a Windows desktop utility. It shows 42 cleanup tasks as check boxes in seven
categories, saves the selection, and runs the checked tasks one after another while a progress
panel shows their progress. It ends by reporting how many tasks ran and how much free space was
reclaimed. This project models the parts of the program that decide what happens:

- **The run coordinator (`MainWindow`, class `MainWindow.Window`).** It copies the settings
  record to the check boxes and back. It refuses to run with nothing checked and asks for
  confirmation. It offers to close running browsers when browser data is selected. It then runs
  the checked tasks in catalogue order, counts the completed ones, updates the progress panel,
  and reports or shows the error of the first task that fails. Effects outside the window's own
  fields form an event trace: saving, dialogs, reading free space, close requests, and tasks run.
- **The task catalogue (`Catalogue`) and the settings record (`Settings`).** These are the 42
  tasks in their run order with their progress labels and report names, and the 42-field
  `CleanerSettings` record.
- **The message dialog (`CustomDialog`).** The dialog shows the icons and buttons for each
  button set and maps each button to a `MessageBoxResult`. WPF's `Window.ShowDialog` returns
  false for a window that closes with its `DialogResult` still null. So the Cancel button of a
  Yes/No/Cancel dialog, and closing a Yes/No-style dialog, answer No; closing an OK-style
  dialog answers Cancel.
- **Free-space display (`ByteSize`):** the unit choice of `FormatBytes`.
- **Registry scans (`RegistryCleanup`, class `RegistryKey`),** all of them in-place deletions
  over a key's values or subkeys:
  - startup-entry (Run key) values whose program is missing;
  - MRU values other than `MRUList`;
  - uninstall entries whose uninstaller is missing;
  - SharedDLLs values naming missing files;
  - COM classes whose in-process server is missing;
  - file-extension associations whose ProgID key is missing.
- **Command parsing (`CommandLine`):** `ExtractExecutablePath`, which finds the program in a
  registry command line.
- **Chromium profiles (`ChromiumProfiles`):** how browser profiles are found under a user-data
  root.
- **Stored credentials (`Credentials`):** parsing `cmdkey /list` output into a case-insensitive
  target set, one delete command per target.
- **Directory trees (`FileTree`):**
  - the bottom-up removal of empty directories below the system drive, which never enters or
    deletes a directory reached at one of the protected paths;
  - `DeleteDirectoryContents`, which empties a directory and falls back to emptying a
    subdirectory it cannot delete;
  - the blank-path filter of `DeleteDirectoryTargets`.
- **Helpers:** `Text` models the .NET string operations used: white space, `Trim`, ordinal
  ignore-case comparison, `IndexOf`, `Split` and case-insensitive hash sets. `Paths` models
  `Path.Combine` and `Path.GetFileName`. `Wrappers` provides `Option`.

What exists on disk is a parameter: `files` and `directories` as sets of paths, and a directory
tree as a `FileTree.Node` value. The same goes for:

- what the user clicks in a dialog (`Option<Button>`, with `None` for closing the window);
- the processes that are running;
- the free space before and after a run;
- the output of `cmdkey /list`;
- which task, if any, throws.

## Model

| member | source | states |
|---|---|---|
| `MainWindow.Window.constructor` | MainWindow.xaml.cs:22-27 | keeps the loaded settings, shows every setting in its check box, starts with zero counts, the progress panel hidden with "Initializing...", Clean enabled and no effects yet |
| `MainWindow.Window.ApplySettingsToUi` | MainWindow.xaml.cs:35-92 | every one of the 42 boxes holds exactly its setting's value |
| `MainWindow.Window.PersistSettings` | MainWindow.xaml.cs:94-153 | each setting becomes true exactly when its box is checked (unchecked and indeterminate both store false); then one save of that record |
| `MainWindow.Window.OnClosed` | MainWindow.xaml.cs:29-33 | closing the window saves the boxes the same way |
| `MainWindow.Window.CountSelectedTasks` | MainWindow.xaml.cs:473-534 | the count is the number of checked tasks, at most 42 |
| `MainWindow.Window.HasAnySelections` | MainWindow.xaml.cs:536-539 | true exactly when some box is checked |
| `MainWindow.Window.ShowDialog` | MainWindow.xaml.cs:163-171 | a window dialog answers as `CustomDialog.Show` does for the user's action, and is recorded with its title, buttons and icon |
| `MainWindow.Window.UpdateProgress` | MainWindow.xaml.cs:443-449 | the progress text becomes the task's label |
| `MainWindow.Window.UpdateProgressBar` | MainWindow.xaml.cs:451-458 | the bar shows completed out of total tasks |
| `MainWindow.Window.ShowProgress` | MainWindow.xaml.cs:460-471 | shows or hides the panel; hiding resets the bar to 0 and the text to "Initializing...", showing keeps both |
| `MainWindow.Window.DisableActionButtons` | MainWindow.xaml.cs:576-579 | Clean is enabled exactly when not disabled |
| `MainWindow.Window.RunTaskWithProgress` | MainWindow.xaml.cs:435-441 | the label is shown before the task is awaited; a task that completes adds one to the count and moves the bar, and one that throws does neither |
| `MainWindow.Window.EnsureProcessesClosed` | MainWindow.xaml.cs:541-574 | nothing happens unless browser data is selected and a browser runs; then the user is asked once, and only a Yes asks each running browser to close |
| `MainWindow.CloseEventsOnlyCloseBrowsers` | MainWindow.xaml.cs:541-574 | only running processes named like one of the nine browsers (any case) are asked to close, and none unless browser data is selected and the answer is Yes |
| `MainWindow.Window.RunIfChecked` | MainWindow.xaml.cs:189-193 | one task block: an unchecked task changes nothing; a checked one runs with its label and, unless it throws, adds its report name |
| `MainWindow.Window.RunSelectedTasks` | MainWindow.xaml.cs:189-411 | runs exactly the checked tasks in catalogue order; stops at the first that throws with the earlier ones counted; otherwise the report names are those of all checked tasks |
| `MainWindow.Window.RunAndReport` | MainWindow.xaml.cs:180-427 | the total is the number of checked tasks; the free space is read after the tasks, and the reclaimed figure uses the reading given as before; a full run ends in the report and "Cleaning complete", a failing one in the error dialog |
| `MainWindow.Window.CloseAndRun` | MainWindow.xaml.cs:178-427 | the `try` block: the close question and requests, the first free-space reading, then the tasks and the report |
| `MainWindow.Window.RunCleanup` | MainWindow.xaml.cs:175-432 | the cleanup with its `finally`: however the run ends, the panel is hidden and reset and Clean is enabled again |
| `MainWindow.Window.CleanButtonClick` | MainWindow.xaml.cs:155-433 | the settings are saved first; with nothing checked, or without a Yes to the confirmation, only a dialog appears and nothing else changes; otherwise the cleanup runs |
| `MainWindow.SelectedIsCheckedInRunOrder` | MainWindow.xaml.cs:189-411 | the tasks that run are exactly the checked ones, each once, in catalogue order, category by category |
| `MainWindow.NothingSelectedIffNoneChecked` | MainWindow.xaml.cs:536-539 | no task is selected exactly when no box is checked |
| `MainWindow.RunEventsShape` | MainWindow.xaml.cs:435-441 | the k-th task run is followed by the bar showing k+1 completed tasks |
| `MainWindow.RunsExactlyTheCheckedTasks` | MainWindow.xaml.cs:189-411 | a task runs, with its own label, exactly when its box is checked |
| `MainWindow.RunsInRunOrder` | MainWindow.xaml.cs:189-411 | tasks run in strictly increasing catalogue position, and the bar never shows more completed tasks than the total |
| `MainWindow.Reclaimed` | MainWindow.xaml.cs:413-414 | the reclaimed space is never negative: the gain in free space, or 0 when free space shrank |
| `MainWindow.NothingRunsUnconfirmed` | MainWindow.xaml.cs:159-173 | without a selection or without a Yes, the click shows one dialog ("Clean" or "Confirm cleaning") and nothing more |
| `MainWindow.ClickRunsOnlyCheckedTasks` | MainWindow.xaml.cs:155-433 | a task runs only after a confirmed click, only when its box is checked, and under its own label |
| `MainWindow.UnfaultedClickRunsEveryCheckedTask` | MainWindow.xaml.cs:155-433 | in a confirmed run where no task throws, every checked task runs, the report lists one name per checked task, and the last dialog is "Cleaning complete" |
| `Catalogue.RunOrderHoldsEveryTask` | MainWindow.xaml.cs:189-411 | every one of the 42 tasks has a place in the run order |
| `Catalogue.PositionInvertsRunOrder` | MainWindow.xaml.cs:189-411 | the position of the task at place i is i, so places and tasks match one to one |
| `Catalogue.RunOrderDistinct` | MainWindow.xaml.cs:189-411 | no task appears twice in the run order |
| `Catalogue.RunOrderGroupedByCategory` | MainWindow.xaml.cs:189-411 | tasks run category by category, in the order the window lists the categories |
| `Settings.SettingOfPersisted` | MainWindow.xaml.cs:94-153 | saving stores, for each task, whether its box is checked |
| `Settings.PersistedIsPointwise` | MainWindow.xaml.cs:94-153 | a record agreeing with the boxes on every task is the saved record |
| `Settings.AppliedShowsSetting` | MainWindow.xaml.cs:35-92 | applying a record puts each setting in its task's box |
| `Settings.ApplyThenPersist` | MainWindow.xaml.cs:35-153 | applying a record to the boxes and saving them again gives back the same record |
| `Settings.PersistThenApply` | MainWindow.xaml.cs:35-153 | saving determinate boxes and applying the result restores every box |
| `Settings.SettingsExtensional` | CleanerSettings.cs:13-72 | two records with the same settings for all 42 tasks are equal, so every field belongs to a task |
| `Settings.DefaultsSelectNothing` | CleanerSettings.cs:13-72 | a fresh record selects no task |
| `Settings.FieldsAreIndependent` | CleanerSettings.cs:13-72 | every two tasks have separate fields: one can be on while the other is off |
| `CustomDialog.ShowResult` | CustomDialog.xaml.cs:100-116 | OK-style dialogs answer OK exactly for `true`, otherwise Cancel; Yes/No-style dialogs answer Yes, No and Cancel for true, false and none; never "None" |
| `CustomDialog.IconShownUnlessNone` | CustomDialog.xaml.cs:16-41 | the icon is visible exactly when an icon is asked for |
| `CustomDialog.AnswerOfClick` | CustomDialog.xaml.cs:73-116 | a click on a visible button answers that button's result, except Cancel of a Yes/No/Cancel dialog, which answers No; closing the window answers Cancel for OK-style dialogs and No for Yes/No-style ones |
| `CustomDialog.YesNoNeverAnswersCancel` | CustomDialog.xaml.cs:110-115 | a Yes/No-style dialog answers Yes or No whatever the user does, so `Show`'s Cancel branch for a null result is never taken |
| `CustomDialog.VisibleButtonsAreDistinguishable` | CustomDialog.xaml.cs:44-116 | two different visible buttons of one dialog give the same result exactly when they are No and Cancel of a Yes/No/Cancel dialog |
| `CustomDialog.Dialog.constructor` | CustomDialog.xaml.cs:11-71 | title and message as given; icon and the four buttons visible exactly as the icon and button set say; no result yet |
| `CustomDialog.Dialog.OkButtonClick` | CustomDialog.xaml.cs:73-77 | the result is true and the dialog closes |
| `CustomDialog.Dialog.YesButtonClick` | CustomDialog.xaml.cs:79-83 | the result is true and the dialog closes |
| `CustomDialog.Dialog.NoButtonClick` | CustomDialog.xaml.cs:85-89 | the result is false and the dialog closes |
| `CustomDialog.Dialog.CancelButtonClick` | CustomDialog.xaml.cs:91-95 | the result is null and the dialog closes |
| `CustomDialog.Dialog.Click` | CustomDialog.xaml.cs:73-95 | a click sets the result its button stands for and closes the dialog |
| `CustomDialog.Show` | CustomDialog.xaml.cs:100-116 | builds the dialog, lets the click handler set its result, and returns what `ShowDialog`'s value (null read as false) maps to: the answer `AnswerOfClick` describes |
| `ByteSize.UnitFor` | MainWindow.xaml.cs:581-592 | the unit is the largest of B, KB, MB, GB, TB whose size the byte count reaches, with TB as the cap |
| `ByteSize.UnitForIsOnlyFit` | MainWindow.xaml.cs:581-592 | any unit meeting those bounds is the chosen unit |
| `ByteSize.AmountTimesUnitIsBytes` | MainWindow.xaml.cs:581-592 | the shown value times the unit's size is the byte count |
| `ByteSize.FormatBytes` | MainWindow.xaml.cs:581-592 | the division loop ends with exactly that unit and value |
| `CommandLine.ExtractExecutablePath` | CleanerOperations.cs:1693-1717 | "" for a blank command; the text between the quotes when the trimmed command starts with a quote closed at index 2 or later; otherwise the unquoted rule on the trimmed command |
| `CommandLine.EmptyIffBlank` | CleanerOperations.cs:1693-1717 | the extracted path is empty exactly when the command is blank |
| `CommandLine.QuotedPathIsBetweenQuotes` | CleanerOperations.cs:1698-1706 | a quoted command with a closing quote after at least one character yields the text between the quotes |
| `CommandLine.QuotedFormHasClosingQuote` | CleanerOperations.cs:1701-1702 | the quoted branch finds its closing quote past the first character |
| `CommandLine.NotQuotedTakesUnquotedRule` | CleanerOperations.cs:1697-1716 | any other non-blank command takes the unquoted rule, on a trimmed text starting with a non-space |
| `CommandLine.FirstTokenShape` | CleanerOperations.cs:1708-1709 | the candidate is the text up to the first space |
| `CommandLine.ExeCutShape` | CleanerOperations.cs:1711-1716 | the candidate is cut just after its first ".exe" (any case), or kept whole when it has none |
| `CommandLine.UnquotedPathShape` | CleanerOperations.cs:1707-1716 | an unquoted path is a non-empty prefix of the trimmed command without spaces, ending at a space, after its first ".exe", or at the end |
| `CommandLine.UnquotedPathStopsAtSpace` | CleanerOperations.cs:1708-1716 | with no ".exe" before the first space, the path is exactly the text up to that space |
| `CommandLine.ExeAtExtends` | CleanerOperations.cs:1711 | an ".exe" found in a prefix is found at the same place in the whole text |
| `RegistryCleanup.StaleIffProgramMissing` | CleanerOperations.cs:1671-1678 | a startup or uninstall command is stale exactly when it is not blank and names a program that does not exist |
| `RegistryCleanup.ExistingQuotedProgramIsKept` | CleanerOperations.cs:1671-1678 | a quoted command whose program exists is never removed, whatever its arguments |
| `RegistryCleanup.RegistryKey.CleanRunKey` | CleanerOperations.cs:1661-1691 | exactly the values whose command names a missing program are deleted; the rest of the key stays |
| `RegistryCleanup.RegistryKey.ClearMruValues` | CleanerOperations.cs:1112-1129 | every value is deleted except those named `MRUList` in any case; the same step serves the RunMRU key at CleanerOperations.cs:182-188 |
| `RegistryCleanup.RegistryKey.CleanUninstallEntries` | CleanerOperations.cs:1198-1228 | exactly the entries whose `UninstallString` names a missing program are deleted with their subtree |
| `RegistryCleanup.RegistryKey.CleanSharedDlls` | CleanerOperations.cs:1240-1267 | exactly the values naming missing files are deleted |
| `RegistryCleanup.RegistryKey.CleanComRegistrations` | CleanerOperations.cs:1272-1304 | exactly the classes whose `InprocServer32` default is non-blank and missing after expansion are deleted |
| `RegistryCleanup.RegistryKey.CleanFileExtensionAssociations` | CleanerOperations.cs:1141-1181 | the key ends as the in-order pass over its subkey names leaves it |
| `RegistryCleanup.ExtensionPassOnlyDeletesExtensions` | CleanerOperations.cs:1150-1173 | the pass only deletes, leaves surviving subkeys unchanged, and keeps every key not starting with "." |
| `RegistryCleanup.ExtensionPassDeletesOnlyOrphans` | CleanerOperations.cs:1152-1167 | a deleted key is an extension with a non-blank ProgID whose key is missing at the end |
| `RegistryCleanup.ExtensionPassDeletesVisitedOrphans` | CleanerOperations.cs:1150-1173 | in any listing order, an extension orphaned at the start is deleted once the loop visits it |
| `RegistryCleanup.ExtensionPassIsOrderFree` | CleanerOperations.cs:1150-1173 | when no ProgID names an extension key, the pass deletes exactly the orphaned extensions, in any order |
| `RegistryCleanup.ExtensionPassPrefix` | CleanerOperations.cs:1150-1173 | under the same condition, each step deletes exactly the orphaned extensions seen so far |
| `Paths.FileNameShape` | CleanerOperations.cs:1392 | a file name is a suffix of its path without separators |
| `Paths.FileNameOfCombine` | CleanerOperations.cs:1392 | the file name of a combined path is the entry name again |
| `ChromiumProfiles.IsUserProfileName` | CleanerOperations.cs:1397-1402 | a profile directory name is "Default", "Guest Profile", "System Profile" or starts with "Profile ", all in any case |
| `ChromiumProfiles.LooksLikeProfile` | CleanerOperations.cs:1426-1433 | a directory looks like a profile when it holds a "History" or "Web Data" file, or a "Local Storage", "Session Storage" or "Extensions" directory |
| `ChromiumProfiles.ProfileNamesAreNotBlank` | CleanerOperations.cs:1393-1402 | no profile name is blank, so the blank-name skip never loses a profile |
| `ChromiumProfiles.NamedProfilesShape` | CleanerOperations.cs:1388-1408 | the loop keeps each profile directory once, up to case, and nothing else |
| `ChromiumProfiles.ProfilesShape` | CleanerOperations.cs:1381-1414 | an existing root has at least one profile; all profile directories are in; the root is in when it looks like a profile or no child is a profile; otherwise only profile directories are |
| `ChromiumProfiles.SelectProfiles` | CleanerOperations.cs:1381-1414 | the loop and the root rule compute that profile set; none when the root is missing |
| `Credentials.TargetOf` | CleanerOperations.cs:1617-1624 | a line names a target when, trimmed, it starts with "Target:" in any case and the trimmed rest is not blank; the target is that rest |
| `Credentials.TargetIsTrimmed` | CleanerOperations.cs:1617-1624 | a target is never blank and has no white space at either end |
| `Credentials.CollectTargetsSound` | CleanerOperations.cs:1614-1628 | every collected target comes from a "Target:" line, and no two are equal up to case |
| `Credentials.CollectTargetsComplete` | CleanerOperations.cs:1614-1628 | the target of every line is collected, up to case |
| `Credentials.TargetLineIsCollected` | CleanerOperations.cs:1615-1628 | every line of the output that names a target contributes it |
| `Credentials.ParseTargets` | CleanerOperations.cs:1614-1628 | the loop over the output's lines computes that target set |
| `Credentials.DeleteArguments` | CleanerOperations.cs:1630-1633 | one "/delete:" argument per target, in order |
| `Credentials.ClearStoredCredentials` | CleanerOperations.cs:1611-1633 | one delete per distinct target of the output |
| `FileTree.ScanNodeRemovesExactlyEmptyTrees` | CleanerOperations.cs:43-66 | a directory is deleted exactly when no file and no directory at a protected path lies below it; a kept entry keeps its name |
| `FileTree.ScanChildrenEmptyIffNoneKept` | CleanerOperations.cs:50-60 | a directory is empty after its children are scanned exactly when none of them survives |
| `FileTree.ProtectedPaths` | CleanerOperations.cs:31-41 | the protected paths: the system root, and Windows, Program Files, Program Files (x86), ProgramData, Users, `$Recycle.Bin` and System Volume Information below it |
| `FileTree.ProtectedDirectoryIsUntouched` | CleanerOperations.cs:29-48 | a directory reached at a path equal, in any case, to the system root, Windows, the Program Files, ProgramData, Users, the recycle bin or System Volume Information path is never entered or deleted |
| `FileTree.ExactProtectedPathIsProtected` | CleanerOperations.cs:29-48 | in particular a directory reached at the exact spelling of a protected path |
| `FileTree.ScanNodeKeepsFiles` | CleanerOperations.cs:43-66 | the scan deletes no file |
| `FileTree.ScanChildrenKeepFiles` | CleanerOperations.cs:50-53 | scanning the entries of a directory deletes no file |
| `FileTree.ScanLeavesNoEmptyDirectory` | CleanerOperations.cs:43-66 | afterwards no directory below the start is empty unless it is reached at a protected path |
| `FileTree.ScanDirectory` | CleanerOperations.cs:43-66 | the recursive scan returns what the bottom-up rule leaves |
| `FileTree.ScanEntries` | CleanerOperations.cs:50-53 | the loop over a directory's entries returns what the rule leaves of each |
| `FileTree.RemoveEmptyDirectories` | CleanerOperations.cs:23-80 | the system root stays with its files; each entry below it is scanned with the protected paths skipped |
| `FileTree.EmptiedKeepsExactlyLockedFiles` | CleanerOperations.cs:1333-1358 | after emptying, the files left below the directory are exactly its locked files |
| `FileTree.EmptiedDirsHoldLockedFiles` | CleanerOperations.cs:1333-1358 | the directory itself stays, and every subdirectory left holds a locked file |
| `FileTree.EmptiedStillLocked` | CleanerOperations.cs:1341-1352 | a directory that could not be deleted still holds a locked file after the fallback |
| `FileTree.HasLockedIffLockedFileBelow` | CleanerOperations.cs:1342-1351 | the condition under which the model's recursive delete fails, a locked entry somewhere below, holds exactly when the set of locked file paths below is not empty |
| `FileTree.DeleteDirectoryContents` | CleanerOperations.cs:1333-1358 | the two loops leave exactly the locked files and emptied undeletable subdirectories |
| `FileTree.DirectoryTargetsMembers` | CleanerOperations.cs:1315-1331 | a path is emptied exactly when it is given, is not blank and names an existing directory |
| `FileTree.DeleteDirectoryTargets` | CleanerOperations.cs:1315-1331 | the loop empties exactly those paths, in the order given |

## Left out

- The cleanup actions each task performs are single opaque steps. They use file deletion,
  `SHEmptyRecycleBin`, `DISM`, `vssadmin`, `powercfg`, service control, event-log clearing,
  shortcut resolution through `GetShortcutTarget`, the Firefox and Chromium profile deletions
  of `CleanChromiumProfile`, and the tables of paths and registry keys they visit. They need
  the operating system and are outside the model. A task either completes or throws.
- Asynchrony and the WPF dispatcher are left out: `await` and `Dispatcher.Invoke` become
  sequential steps. The model assumes nobody changes a check box during a run.
- The progress bar's percentage (a `double`) is left out. The model records the completed
  and total counts. The report's "0.##" rendering is left out too: the model keeps the value
  as a real number and the unit as a string.
- Message texts whose content depends on the run are modelled only by their fixed parts. These
  are the report lines, the list of process names and the exception message.
- Exceptions other than a task that throws are not modelled. This covers registry or
  file-system access errors and the per-item `try`/`catch` blocks. So is a partial failure of
  `Directory.Delete(dir, true)`: the model treats it as all-or-nothing. `FileTree.DeleteRecursive`
  is this assumption: it fails exactly when a locked entry lies below. The fallback empties
  such a directory either way, so the final tree is the same.
- `CleanerSettings.Load` and `Save` (JSON files in the user's profile) are left out. Saving
  is an event that carries the saved record.
- Each task's `Task.Run` starts when its `RunTaskWithProgress` call is evaluated, before
  `UpdateProgress` shows its label. The model runs a task as one step after the label, so it
  orders the label before the task's completion only, not before its start.
- `CustomDialog.Show` relies on WPF's `Window.ShowDialog` returning false for a window that
  closes with a null `DialogResult`. That is the platform's behaviour, not code of the program.
- Junctions and symbolic links are not modelled: a directory tree is a finite tree of
  `FileTree.Node` values. The scan protects path strings, not directories. A protected directory
  reached through a link at another path is scanned there, and its empty subdirectories are
  deleted; `FileTree.ProtectedDirectoryIsUntouched` speaks only of the protected paths.
- Enumerating processes, `CloseMainWindow` and `WaitForExit` are left out. Running processes
  are a parameter, and a close request is an event.
- Free space is a parameter read before and after the run. `DriveInfo` and `long` overflow are
  not modelled.
- Ignore-case comparison folds ASCII letters only. `OrdinalIgnoreCase` also folds other
  letters, which the model does not.
- Registry value and key names, and file paths, are compared exactly. Windows compares them
  without regard to case; the source itself ignores case only for `MRUList`, profile names,
  protected paths and credential targets.
- `classesKey.OpenSubKey(progId)` is modelled as a lookup one level down. A ProgID containing
  a backslash, which would name a nested key, is not modelled.
- `subKeyName.StartsWith(".")` and, in `ExtractExecutablePath`, `trimmed.StartsWith("\"")` are
  culture-sensitive in .NET. The model takes each as an ordinal test of the first character.
- `Environment.ExpandEnvironmentVariables` is the parameter `expand`.
- `Path.Combine` with a rooted second argument, and `Path.GetFileName` on a volume root, are
  not modelled. Entries of a directory never have rooted names.
- The order in which the registry lists values and subkeys does not matter to the deletions.
  It does matter for file-extension associations, so only there is it a parameter.
- `App.xaml.cs` and the XAML layouts are outside the model.
- `CleanChromiumBasedBrowserRoot` is modelled only up to the choice of profiles. The
  deletions inside each profile and of the two crash-report directories are cleanup actions
  and are not modelled.

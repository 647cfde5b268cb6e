/**
 * The persisted selection record (`CleanerSettings`), the main window's check boxes,
 * and the two copies between them: `ApplySettingsToUi` shows each flag in its box and
 * `PersistSettings` stores each box back, reading an indeterminate box as false.
 * Loading and saving the record as JSON is not part of this model.
 */
module Settings {
  import opened Wrappers
  import opened Catalogue

  /** The 42 flags, in the declaration order of `CleanerSettings`. */
  datatype CleanerSettings = CleanerSettings(
    removeJunkFiles: bool,
    cleanSystemTemporaryFiles: bool,
    emptyRecycleBin: bool,
    removeDiagnosticsAndErrorReports: bool,
    clearVisualCache: bool,
    clearFileHistory: bool,
    wipeBrowserData: bool,
    removeWindowsDefenderHistory: bool,
    cleanRegistry: bool,
    cleanComponentStore: bool,
    removeEmptyDirectories: bool,
    removeBrokenShortcuts: bool,
    clearFontCache: bool,
    clearWindowsStoreCache: bool,
    cleanWindowsUpdate: bool,
    clearNetworkLocationCache: bool,
    clearBITSQueue: bool,
    clearCBSLogs: bool,
    clearEventLogs: bool,
    clearWindowsSetupLogs: bool,
    clearCrashDumps: bool,
    clearPerformanceMonitorData: bool,
    clearClipboardHistory: bool,
    rebuildSearchIndex: bool,
    clearUserAssistData: bool,
    clearTypedPaths: bool,
    clearMUICache: bool,
    clearRecentApps: bool,
    flushDNSCache: bool,
    clearNetBIOSCache: bool,
    clearARPCache: bool,
    clearWindowsNetworkingCache: bool,
    removeWindowsOld: bool,
    cleanDriverStore: bool,
    cleanWindowsInstallerCache: bool,
    disableHibernation: bool,
    cleanSystemRestorePoints: bool,
    clearMRULists: bool,
    cleanFileExtensionAssociations: bool,
    cleanUninstallEntries: bool,
    cleanSharedDLLs: bool,
    cleanCOMRegistrations: bool
  )

  /** The `IsChecked` values of the task check boxes (a WPF `bool?`: checked, unchecked
      or indeterminate). */
  type CheckBoxes = map<TaskId, Option<bool>>

  /** The record `new CleanerSettings()` creates: every flag false. */
  const Defaults: CleanerSettings := CleanerSettings(false, false, false, false, false, false, false, false, false, false, false, false, false, false, false, false, false, false, false, false, false, false, false, false, false, false, false, false, false, false, false, false, false, false, false, false, false, false, false, false, false, false)

  /** The field of the record that belongs to a task. */
  function Setting(s: CleanerSettings, t: TaskId): bool
  {
    match t
    case QuickCleanup(x) => QuickCleanupSetting(s, x)
    case PrivacyAndTracking(x) => PrivacyAndTrackingSetting(s, x)
    case SystemMaintenance(x) => SystemMaintenanceSetting(s, x)
    case LogsAndDiagnostics(x) => LogsAndDiagnosticsSetting(s, x)
    case Network(x) => NetworkSetting(s, x)
    case Registry(x) => RegistrySetting(s, x)
    case Advanced(x) => AdvancedSetting(s, x)
  }

  function QuickCleanupSetting(s: CleanerSettings, x: QuickCleanupTask): bool
  {
    match x
    case RemoveJunkFiles => s.removeJunkFiles
    case CleanSystemTemporaryFiles => s.cleanSystemTemporaryFiles
    case EmptyRecycleBin => s.emptyRecycleBin
    case WipeBrowserData => s.wipeBrowserData
    case ClearFileHistory => s.clearFileHistory
  }

  function PrivacyAndTrackingSetting(s: CleanerSettings, x: PrivacyTask): bool
  {
    match x
    case RemoveWindowsDefenderHistory => s.removeWindowsDefenderHistory
    case ClearUserAssistData => s.clearUserAssistData
    case ClearTypedPaths => s.clearTypedPaths
    case ClearRecentApps => s.clearRecentApps
    case ClearClipboardHistory => s.clearClipboardHistory
    case ClearMRULists => s.clearMRULists
  }

  function SystemMaintenanceSetting(s: CleanerSettings, x: SystemTask): bool
  {
    match x
    case ClearVisualCache => s.clearVisualCache
    case ClearFontCache => s.clearFontCache
    case ClearWindowsStoreCache => s.clearWindowsStoreCache
    case CleanComponentStore => s.cleanComponentStore
    case CleanWindowsUpdate => s.cleanWindowsUpdate
  }

  function LogsAndDiagnosticsSetting(s: CleanerSettings, x: LogsTask): bool
  {
    match x
    case RemoveDiagnosticsAndErrorReports => s.removeDiagnosticsAndErrorReports
    case ClearEventLogs => s.clearEventLogs
    case ClearWindowsSetupLogs => s.clearWindowsSetupLogs
    case ClearCrashDumps => s.clearCrashDumps
    case ClearPerformanceMonitorData => s.clearPerformanceMonitorData
    case ClearCBSLogs => s.clearCBSLogs
  }

  function NetworkSetting(s: CleanerSettings, x: NetworkTask): bool
  {
    match x
    case FlushDNSCache => s.flushDNSCache
    case ClearNetBIOSCache => s.clearNetBIOSCache
    case ClearARPCache => s.clearARPCache
    case ClearWindowsNetworkingCache => s.clearWindowsNetworkingCache
    case ClearNetworkLocationCache => s.clearNetworkLocationCache
    case ClearBITSQueue => s.clearBITSQueue
  }

  function RegistrySetting(s: CleanerSettings, x: RegistryTask): bool
  {
    match x
    case CleanRegistry => s.cleanRegistry
    case CleanFileExtensionAssociations => s.cleanFileExtensionAssociations
    case CleanUninstallEntries => s.cleanUninstallEntries
    case CleanSharedDLLs => s.cleanSharedDLLs
    case CleanCOMRegistrations => s.cleanCOMRegistrations
    case ClearMUICache => s.clearMUICache
  }

  function AdvancedSetting(s: CleanerSettings, x: AdvancedTask): bool
  {
    match x
    case RemoveEmptyDirectories => s.removeEmptyDirectories
    case RemoveBrokenShortcuts => s.removeBrokenShortcuts
    case RemoveWindowsOld => s.removeWindowsOld
    case CleanDriverStore => s.cleanDriverStore
    case CleanWindowsInstallerCache => s.cleanWindowsInstallerCache
    case DisableHibernation => s.disableHibernation
    case CleanSystemRestorePoints => s.cleanSystemRestorePoints
    case RebuildSearchIndex => s.rebuildSearchIndex
  }

  /** `box.IsChecked ?? false` for the box of a task. */
  function BoxValue(boxes: CheckBoxes, t: TaskId): bool
  {
    t in boxes && boxes[t].GetOr(false)
  }

  /** The record `PersistSettings` writes: each field from the box of its task. */
  function Persisted(boxes: CheckBoxes): CleanerSettings
  {
    CleanerSettings(BoxValue(boxes, QuickCleanup(RemoveJunkFiles)), BoxValue(boxes, QuickCleanup(CleanSystemTemporaryFiles)), BoxValue(boxes, QuickCleanup(EmptyRecycleBin)), BoxValue(boxes, LogsAndDiagnostics(RemoveDiagnosticsAndErrorReports)), BoxValue(boxes, SystemMaintenance(ClearVisualCache)), BoxValue(boxes, QuickCleanup(ClearFileHistory)), BoxValue(boxes, QuickCleanup(WipeBrowserData)), BoxValue(boxes, PrivacyAndTracking(RemoveWindowsDefenderHistory)), BoxValue(boxes, Registry(CleanRegistry)), BoxValue(boxes, SystemMaintenance(CleanComponentStore)), BoxValue(boxes, Advanced(RemoveEmptyDirectories)), BoxValue(boxes, Advanced(RemoveBrokenShortcuts)), BoxValue(boxes, SystemMaintenance(ClearFontCache)), BoxValue(boxes, SystemMaintenance(ClearWindowsStoreCache)), BoxValue(boxes, SystemMaintenance(CleanWindowsUpdate)), BoxValue(boxes, Network(ClearNetworkLocationCache)), BoxValue(boxes, Network(ClearBITSQueue)), BoxValue(boxes, LogsAndDiagnostics(ClearCBSLogs)), BoxValue(boxes, LogsAndDiagnostics(ClearEventLogs)), BoxValue(boxes, LogsAndDiagnostics(ClearWindowsSetupLogs)), BoxValue(boxes, LogsAndDiagnostics(ClearCrashDumps)), BoxValue(boxes, LogsAndDiagnostics(ClearPerformanceMonitorData)), BoxValue(boxes, PrivacyAndTracking(ClearClipboardHistory)), BoxValue(boxes, Advanced(RebuildSearchIndex)), BoxValue(boxes, PrivacyAndTracking(ClearUserAssistData)), BoxValue(boxes, PrivacyAndTracking(ClearTypedPaths)), BoxValue(boxes, Registry(ClearMUICache)), BoxValue(boxes, PrivacyAndTracking(ClearRecentApps)), BoxValue(boxes, Network(FlushDNSCache)), BoxValue(boxes, Network(ClearNetBIOSCache)), BoxValue(boxes, Network(ClearARPCache)), BoxValue(boxes, Network(ClearWindowsNetworkingCache)), BoxValue(boxes, Advanced(RemoveWindowsOld)), BoxValue(boxes, Advanced(CleanDriverStore)), BoxValue(boxes, Advanced(CleanWindowsInstallerCache)), BoxValue(boxes, Advanced(DisableHibernation)), BoxValue(boxes, Advanced(CleanSystemRestorePoints)), BoxValue(boxes, PrivacyAndTracking(ClearMRULists)), BoxValue(boxes, Registry(CleanFileExtensionAssociations)), BoxValue(boxes, Registry(CleanUninstallEntries)), BoxValue(boxes, Registry(CleanSharedDLLs)), BoxValue(boxes, Registry(CleanCOMRegistrations)))
  }

  /** The boxes `ApplySettingsToUi` sets: each box shows the field of its task. */
  function Applied(s: CleanerSettings): CheckBoxes
  {
    map t | t in RunOrder :: Some(Setting(s, t))
  }

  /** Persisting stores each box, read as `?? false`, in the field of its task. */
  lemma SettingOfPersisted(boxes: CheckBoxes, t: TaskId)
    ensures Setting(Persisted(boxes), t) == BoxValue(boxes, t)
  {
    match t
    case QuickCleanup(x) => SettingOfPersistedQuickCleanup(boxes, x);
    case PrivacyAndTracking(x) => SettingOfPersistedPrivacyAndTracking(boxes, x);
    case SystemMaintenance(x) => SettingOfPersistedSystemMaintenance(boxes, x);
    case LogsAndDiagnostics(x) => SettingOfPersistedLogsAndDiagnostics(boxes, x);
    case Network(x) => SettingOfPersistedNetwork(boxes, x);
    case Registry(x) => SettingOfPersistedRegistry(boxes, x);
    case Advanced(x) => SettingOfPersistedAdvanced(boxes, x);
  }

  lemma SettingOfPersistedQuickCleanup(boxes: CheckBoxes, x: QuickCleanupTask)
    ensures Setting(Persisted(boxes), QuickCleanup(x)) == BoxValue(boxes, QuickCleanup(x))
  {
    if x.Index() < 3 { SettingOfPersistedQuickCleanupPart0(boxes, x); }
    else { SettingOfPersistedQuickCleanupPart1(boxes, x); }
  }

  lemma SettingOfPersistedQuickCleanupPart0(boxes: CheckBoxes, x: QuickCleanupTask)
    requires x.Index() < 3
    ensures Setting(Persisted(boxes), QuickCleanup(x)) == BoxValue(boxes, QuickCleanup(x))
  {
    if x == RemoveJunkFiles { assert Persisted(boxes).removeJunkFiles == BoxValue(boxes, QuickCleanup(x)); }
    else if x == CleanSystemTemporaryFiles { assert Persisted(boxes).cleanSystemTemporaryFiles == BoxValue(boxes, QuickCleanup(x)); }
    else { assert x == EmptyRecycleBin; assert Persisted(boxes).emptyRecycleBin == BoxValue(boxes, QuickCleanup(x)); }
  }

  lemma SettingOfPersistedQuickCleanupPart1(boxes: CheckBoxes, x: QuickCleanupTask)
    requires 3 <= x.Index()
    ensures Setting(Persisted(boxes), QuickCleanup(x)) == BoxValue(boxes, QuickCleanup(x))
  {
    if x == WipeBrowserData { assert Persisted(boxes).wipeBrowserData == BoxValue(boxes, QuickCleanup(x)); }
    else { assert x == ClearFileHistory; assert Persisted(boxes).clearFileHistory == BoxValue(boxes, QuickCleanup(x)); }
  }

  lemma SettingOfPersistedPrivacyAndTracking(boxes: CheckBoxes, x: PrivacyTask)
    ensures Setting(Persisted(boxes), PrivacyAndTracking(x)) == BoxValue(boxes, PrivacyAndTracking(x))
  {
    if x.Index() < 3 { SettingOfPersistedPrivacyAndTrackingPart0(boxes, x); }
    else { SettingOfPersistedPrivacyAndTrackingPart1(boxes, x); }
  }

  lemma SettingOfPersistedPrivacyAndTrackingPart0(boxes: CheckBoxes, x: PrivacyTask)
    requires x.Index() < 3
    ensures Setting(Persisted(boxes), PrivacyAndTracking(x)) == BoxValue(boxes, PrivacyAndTracking(x))
  {
    if x == RemoveWindowsDefenderHistory { assert Persisted(boxes).removeWindowsDefenderHistory == BoxValue(boxes, PrivacyAndTracking(x)); }
    else if x == ClearUserAssistData { assert Persisted(boxes).clearUserAssistData == BoxValue(boxes, PrivacyAndTracking(x)); }
    else { assert x == ClearTypedPaths; assert Persisted(boxes).clearTypedPaths == BoxValue(boxes, PrivacyAndTracking(x)); }
  }

  lemma SettingOfPersistedPrivacyAndTrackingPart1(boxes: CheckBoxes, x: PrivacyTask)
    requires 3 <= x.Index()
    ensures Setting(Persisted(boxes), PrivacyAndTracking(x)) == BoxValue(boxes, PrivacyAndTracking(x))
  {
    if x == ClearRecentApps { assert Persisted(boxes).clearRecentApps == BoxValue(boxes, PrivacyAndTracking(x)); }
    else if x == ClearClipboardHistory { assert Persisted(boxes).clearClipboardHistory == BoxValue(boxes, PrivacyAndTracking(x)); }
    else { assert x == ClearMRULists; assert Persisted(boxes).clearMRULists == BoxValue(boxes, PrivacyAndTracking(x)); }
  }

  lemma SettingOfPersistedSystemMaintenance(boxes: CheckBoxes, x: SystemTask)
    ensures Setting(Persisted(boxes), SystemMaintenance(x)) == BoxValue(boxes, SystemMaintenance(x))
  {
    if x.Index() < 3 { SettingOfPersistedSystemMaintenancePart0(boxes, x); }
    else { SettingOfPersistedSystemMaintenancePart1(boxes, x); }
  }

  lemma SettingOfPersistedSystemMaintenancePart0(boxes: CheckBoxes, x: SystemTask)
    requires x.Index() < 3
    ensures Setting(Persisted(boxes), SystemMaintenance(x)) == BoxValue(boxes, SystemMaintenance(x))
  {
    if x == ClearVisualCache { assert Persisted(boxes).clearVisualCache == BoxValue(boxes, SystemMaintenance(x)); }
    else if x == ClearFontCache { assert Persisted(boxes).clearFontCache == BoxValue(boxes, SystemMaintenance(x)); }
    else { assert x == ClearWindowsStoreCache; assert Persisted(boxes).clearWindowsStoreCache == BoxValue(boxes, SystemMaintenance(x)); }
  }

  lemma SettingOfPersistedSystemMaintenancePart1(boxes: CheckBoxes, x: SystemTask)
    requires 3 <= x.Index()
    ensures Setting(Persisted(boxes), SystemMaintenance(x)) == BoxValue(boxes, SystemMaintenance(x))
  {
    if x == CleanComponentStore { assert Persisted(boxes).cleanComponentStore == BoxValue(boxes, SystemMaintenance(x)); }
    else { assert x == CleanWindowsUpdate; assert Persisted(boxes).cleanWindowsUpdate == BoxValue(boxes, SystemMaintenance(x)); }
  }

  lemma SettingOfPersistedLogsAndDiagnostics(boxes: CheckBoxes, x: LogsTask)
    ensures Setting(Persisted(boxes), LogsAndDiagnostics(x)) == BoxValue(boxes, LogsAndDiagnostics(x))
  {
    if x.Index() < 3 { SettingOfPersistedLogsAndDiagnosticsPart0(boxes, x); }
    else { SettingOfPersistedLogsAndDiagnosticsPart1(boxes, x); }
  }

  lemma SettingOfPersistedLogsAndDiagnosticsPart0(boxes: CheckBoxes, x: LogsTask)
    requires x.Index() < 3
    ensures Setting(Persisted(boxes), LogsAndDiagnostics(x)) == BoxValue(boxes, LogsAndDiagnostics(x))
  {
    if x == RemoveDiagnosticsAndErrorReports { assert Persisted(boxes).removeDiagnosticsAndErrorReports == BoxValue(boxes, LogsAndDiagnostics(x)); }
    else if x == ClearEventLogs { assert Persisted(boxes).clearEventLogs == BoxValue(boxes, LogsAndDiagnostics(x)); }
    else { assert x == ClearWindowsSetupLogs; assert Persisted(boxes).clearWindowsSetupLogs == BoxValue(boxes, LogsAndDiagnostics(x)); }
  }

  lemma SettingOfPersistedLogsAndDiagnosticsPart1(boxes: CheckBoxes, x: LogsTask)
    requires 3 <= x.Index()
    ensures Setting(Persisted(boxes), LogsAndDiagnostics(x)) == BoxValue(boxes, LogsAndDiagnostics(x))
  {
    if x == ClearCrashDumps { assert Persisted(boxes).clearCrashDumps == BoxValue(boxes, LogsAndDiagnostics(x)); }
    else if x == ClearPerformanceMonitorData { assert Persisted(boxes).clearPerformanceMonitorData == BoxValue(boxes, LogsAndDiagnostics(x)); }
    else { assert x == ClearCBSLogs; assert Persisted(boxes).clearCBSLogs == BoxValue(boxes, LogsAndDiagnostics(x)); }
  }

  lemma SettingOfPersistedNetwork(boxes: CheckBoxes, x: NetworkTask)
    ensures Setting(Persisted(boxes), Network(x)) == BoxValue(boxes, Network(x))
  {
    if x.Index() < 3 { SettingOfPersistedNetworkPart0(boxes, x); }
    else { SettingOfPersistedNetworkPart1(boxes, x); }
  }

  lemma SettingOfPersistedNetworkPart0(boxes: CheckBoxes, x: NetworkTask)
    requires x.Index() < 3
    ensures Setting(Persisted(boxes), Network(x)) == BoxValue(boxes, Network(x))
  {
    if x == FlushDNSCache { assert Persisted(boxes).flushDNSCache == BoxValue(boxes, Network(x)); }
    else if x == ClearNetBIOSCache { assert Persisted(boxes).clearNetBIOSCache == BoxValue(boxes, Network(x)); }
    else { assert x == ClearARPCache; assert Persisted(boxes).clearARPCache == BoxValue(boxes, Network(x)); }
  }

  lemma SettingOfPersistedNetworkPart1(boxes: CheckBoxes, x: NetworkTask)
    requires 3 <= x.Index()
    ensures Setting(Persisted(boxes), Network(x)) == BoxValue(boxes, Network(x))
  {
    if x == ClearWindowsNetworkingCache { assert Persisted(boxes).clearWindowsNetworkingCache == BoxValue(boxes, Network(x)); }
    else if x == ClearNetworkLocationCache { assert Persisted(boxes).clearNetworkLocationCache == BoxValue(boxes, Network(x)); }
    else { assert x == ClearBITSQueue; assert Persisted(boxes).clearBITSQueue == BoxValue(boxes, Network(x)); }
  }

  lemma SettingOfPersistedRegistry(boxes: CheckBoxes, x: RegistryTask)
    ensures Setting(Persisted(boxes), Registry(x)) == BoxValue(boxes, Registry(x))
  {
    if x.Index() < 3 { SettingOfPersistedRegistryPart0(boxes, x); }
    else { SettingOfPersistedRegistryPart1(boxes, x); }
  }

  lemma SettingOfPersistedRegistryPart0(boxes: CheckBoxes, x: RegistryTask)
    requires x.Index() < 3
    ensures Setting(Persisted(boxes), Registry(x)) == BoxValue(boxes, Registry(x))
  {
    if x == CleanRegistry { assert Persisted(boxes).cleanRegistry == BoxValue(boxes, Registry(x)); }
    else if x == CleanFileExtensionAssociations { assert Persisted(boxes).cleanFileExtensionAssociations == BoxValue(boxes, Registry(x)); }
    else { assert x == CleanUninstallEntries; assert Persisted(boxes).cleanUninstallEntries == BoxValue(boxes, Registry(x)); }
  }

  lemma SettingOfPersistedRegistryPart1(boxes: CheckBoxes, x: RegistryTask)
    requires 3 <= x.Index()
    ensures Setting(Persisted(boxes), Registry(x)) == BoxValue(boxes, Registry(x))
  {
    if x == CleanSharedDLLs { assert Persisted(boxes).cleanSharedDLLs == BoxValue(boxes, Registry(x)); }
    else if x == CleanCOMRegistrations { assert Persisted(boxes).cleanCOMRegistrations == BoxValue(boxes, Registry(x)); }
    else { assert x == ClearMUICache; assert Persisted(boxes).clearMUICache == BoxValue(boxes, Registry(x)); }
  }

  lemma SettingOfPersistedAdvanced(boxes: CheckBoxes, x: AdvancedTask)
    ensures Setting(Persisted(boxes), Advanced(x)) == BoxValue(boxes, Advanced(x))
  {
    if x.Index() < 3 { SettingOfPersistedAdvancedPart0(boxes, x); }
    else if x.Index() < 6 { SettingOfPersistedAdvancedPart1(boxes, x); }
    else { SettingOfPersistedAdvancedPart2(boxes, x); }
  }

  lemma SettingOfPersistedAdvancedPart0(boxes: CheckBoxes, x: AdvancedTask)
    requires x.Index() < 3
    ensures Setting(Persisted(boxes), Advanced(x)) == BoxValue(boxes, Advanced(x))
  {
    if x == RemoveEmptyDirectories { assert Persisted(boxes).removeEmptyDirectories == BoxValue(boxes, Advanced(x)); }
    else if x == RemoveBrokenShortcuts { assert Persisted(boxes).removeBrokenShortcuts == BoxValue(boxes, Advanced(x)); }
    else { assert x == RemoveWindowsOld; assert Persisted(boxes).removeWindowsOld == BoxValue(boxes, Advanced(x)); }
  }

  lemma SettingOfPersistedAdvancedPart1(boxes: CheckBoxes, x: AdvancedTask)
    requires 3 <= x.Index() < 6
    ensures Setting(Persisted(boxes), Advanced(x)) == BoxValue(boxes, Advanced(x))
  {
    if x == CleanDriverStore { assert Persisted(boxes).cleanDriverStore == BoxValue(boxes, Advanced(x)); }
    else if x == CleanWindowsInstallerCache { assert Persisted(boxes).cleanWindowsInstallerCache == BoxValue(boxes, Advanced(x)); }
    else { assert x == DisableHibernation; assert Persisted(boxes).disableHibernation == BoxValue(boxes, Advanced(x)); }
  }

  lemma SettingOfPersistedAdvancedPart2(boxes: CheckBoxes, x: AdvancedTask)
    requires 6 <= x.Index()
    ensures Setting(Persisted(boxes), Advanced(x)) == BoxValue(boxes, Advanced(x))
  {
    if x == CleanSystemRestorePoints { assert Persisted(boxes).cleanSystemRestorePoints == BoxValue(boxes, Advanced(x)); }
    else { assert x == RebuildSearchIndex; assert Persisted(boxes).rebuildSearchIndex == BoxValue(boxes, Advanced(x)); }
  }

  /** Applying shows every task's flag, as a checked or unchecked box. */
  lemma AppliedShowsSetting(s: CleanerSettings, t: TaskId)
    ensures t in Applied(s) && Applied(s)[t] == Some(Setting(s, t))
  {
    RunOrderHoldsEveryTask(t);
  }

  /** With the default record no task is selected. */
  lemma DefaultsSelectNothing(t: TaskId)
    ensures !Setting(Defaults, t)
  {
  }

  /** A record is determined by its 42 task flags. */
  lemma SettingsExtensional(a: CleanerSettings, b: CleanerSettings)
    requires forall t :: Setting(a, t) == Setting(b, t)
    ensures a == b
  {
    StorageFieldsAgree(a, b);
    HistoryAndPrivacyFieldsAgree(a, b);
    SystemFieldsAgree(a, b);
    ClutterFieldsAgree(a, b);
    WindowsSystemCacheFieldsAgree(a, b);
    EventAndDiagnosticLogsFieldsAgree(a, b);
    UserProfileCleanupFieldsAgree(a, b);
    NetworkCacheFieldsAgree(a, b);
    LargeSystemFilesFieldsAgree(a, b);
    RegistryOptimizationFieldsAgree(a, b);
  }

  lemma StorageFieldsAgree(a: CleanerSettings, b: CleanerSettings)
    requires forall t :: Setting(a, t) == Setting(b, t)
    ensures a.removeJunkFiles == b.removeJunkFiles && a.cleanSystemTemporaryFiles == b.cleanSystemTemporaryFiles && a.emptyRecycleBin == b.emptyRecycleBin && a.removeDiagnosticsAndErrorReports == b.removeDiagnosticsAndErrorReports && a.clearVisualCache == b.clearVisualCache
  {
    assert Setting(a, QuickCleanup(RemoveJunkFiles)) == Setting(b, QuickCleanup(RemoveJunkFiles));
    assert Setting(a, QuickCleanup(CleanSystemTemporaryFiles)) == Setting(b, QuickCleanup(CleanSystemTemporaryFiles));
    assert Setting(a, QuickCleanup(EmptyRecycleBin)) == Setting(b, QuickCleanup(EmptyRecycleBin));
    assert Setting(a, LogsAndDiagnostics(RemoveDiagnosticsAndErrorReports)) == Setting(b, LogsAndDiagnostics(RemoveDiagnosticsAndErrorReports));
    assert Setting(a, SystemMaintenance(ClearVisualCache)) == Setting(b, SystemMaintenance(ClearVisualCache));
  }

  lemma HistoryAndPrivacyFieldsAgree(a: CleanerSettings, b: CleanerSettings)
    requires forall t :: Setting(a, t) == Setting(b, t)
    ensures a.clearFileHistory == b.clearFileHistory && a.wipeBrowserData == b.wipeBrowserData && a.removeWindowsDefenderHistory == b.removeWindowsDefenderHistory
  {
    assert Setting(a, QuickCleanup(ClearFileHistory)) == Setting(b, QuickCleanup(ClearFileHistory));
    assert Setting(a, QuickCleanup(WipeBrowserData)) == Setting(b, QuickCleanup(WipeBrowserData));
    assert Setting(a, PrivacyAndTracking(RemoveWindowsDefenderHistory)) == Setting(b, PrivacyAndTracking(RemoveWindowsDefenderHistory));
  }

  lemma SystemFieldsAgree(a: CleanerSettings, b: CleanerSettings)
    requires forall t :: Setting(a, t) == Setting(b, t)
    ensures a.cleanRegistry == b.cleanRegistry && a.cleanComponentStore == b.cleanComponentStore
  {
    assert Setting(a, Registry(CleanRegistry)) == Setting(b, Registry(CleanRegistry));
    assert Setting(a, SystemMaintenance(CleanComponentStore)) == Setting(b, SystemMaintenance(CleanComponentStore));
  }

  lemma ClutterFieldsAgree(a: CleanerSettings, b: CleanerSettings)
    requires forall t :: Setting(a, t) == Setting(b, t)
    ensures a.removeEmptyDirectories == b.removeEmptyDirectories && a.removeBrokenShortcuts == b.removeBrokenShortcuts
  {
    assert Setting(a, Advanced(RemoveEmptyDirectories)) == Setting(b, Advanced(RemoveEmptyDirectories));
    assert Setting(a, Advanced(RemoveBrokenShortcuts)) == Setting(b, Advanced(RemoveBrokenShortcuts));
  }

  lemma WindowsSystemCacheFieldsAgree(a: CleanerSettings, b: CleanerSettings)
    requires forall t :: Setting(a, t) == Setting(b, t)
    ensures a.clearFontCache == b.clearFontCache && a.clearWindowsStoreCache == b.clearWindowsStoreCache && a.cleanWindowsUpdate == b.cleanWindowsUpdate && a.clearNetworkLocationCache == b.clearNetworkLocationCache && a.clearBITSQueue == b.clearBITSQueue && a.clearCBSLogs == b.clearCBSLogs
  {
    assert Setting(a, SystemMaintenance(ClearFontCache)) == Setting(b, SystemMaintenance(ClearFontCache));
    assert Setting(a, SystemMaintenance(ClearWindowsStoreCache)) == Setting(b, SystemMaintenance(ClearWindowsStoreCache));
    assert Setting(a, SystemMaintenance(CleanWindowsUpdate)) == Setting(b, SystemMaintenance(CleanWindowsUpdate));
    assert Setting(a, Network(ClearNetworkLocationCache)) == Setting(b, Network(ClearNetworkLocationCache));
    assert Setting(a, Network(ClearBITSQueue)) == Setting(b, Network(ClearBITSQueue));
    assert Setting(a, LogsAndDiagnostics(ClearCBSLogs)) == Setting(b, LogsAndDiagnostics(ClearCBSLogs));
  }

  lemma EventAndDiagnosticLogsFieldsAgree(a: CleanerSettings, b: CleanerSettings)
    requires forall t :: Setting(a, t) == Setting(b, t)
    ensures a.clearEventLogs == b.clearEventLogs && a.clearWindowsSetupLogs == b.clearWindowsSetupLogs && a.clearCrashDumps == b.clearCrashDumps && a.clearPerformanceMonitorData == b.clearPerformanceMonitorData
  {
    assert Setting(a, LogsAndDiagnostics(ClearEventLogs)) == Setting(b, LogsAndDiagnostics(ClearEventLogs));
    assert Setting(a, LogsAndDiagnostics(ClearWindowsSetupLogs)) == Setting(b, LogsAndDiagnostics(ClearWindowsSetupLogs));
    assert Setting(a, LogsAndDiagnostics(ClearCrashDumps)) == Setting(b, LogsAndDiagnostics(ClearCrashDumps));
    assert Setting(a, LogsAndDiagnostics(ClearPerformanceMonitorData)) == Setting(b, LogsAndDiagnostics(ClearPerformanceMonitorData));
  }

  lemma UserProfileCleanupFieldsAgree(a: CleanerSettings, b: CleanerSettings)
    requires forall t :: Setting(a, t) == Setting(b, t)
    ensures a.clearClipboardHistory == b.clearClipboardHistory && a.rebuildSearchIndex == b.rebuildSearchIndex && a.clearUserAssistData == b.clearUserAssistData && a.clearTypedPaths == b.clearTypedPaths && a.clearMUICache == b.clearMUICache && a.clearRecentApps == b.clearRecentApps
  {
    assert Setting(a, PrivacyAndTracking(ClearClipboardHistory)) == Setting(b, PrivacyAndTracking(ClearClipboardHistory));
    assert Setting(a, Advanced(RebuildSearchIndex)) == Setting(b, Advanced(RebuildSearchIndex));
    assert Setting(a, PrivacyAndTracking(ClearUserAssistData)) == Setting(b, PrivacyAndTracking(ClearUserAssistData));
    assert Setting(a, PrivacyAndTracking(ClearTypedPaths)) == Setting(b, PrivacyAndTracking(ClearTypedPaths));
    assert Setting(a, Registry(ClearMUICache)) == Setting(b, Registry(ClearMUICache));
    assert Setting(a, PrivacyAndTracking(ClearRecentApps)) == Setting(b, PrivacyAndTracking(ClearRecentApps));
  }

  lemma NetworkCacheFieldsAgree(a: CleanerSettings, b: CleanerSettings)
    requires forall t :: Setting(a, t) == Setting(b, t)
    ensures a.flushDNSCache == b.flushDNSCache && a.clearNetBIOSCache == b.clearNetBIOSCache && a.clearARPCache == b.clearARPCache && a.clearWindowsNetworkingCache == b.clearWindowsNetworkingCache
  {
    assert Setting(a, Network(FlushDNSCache)) == Setting(b, Network(FlushDNSCache));
    assert Setting(a, Network(ClearNetBIOSCache)) == Setting(b, Network(ClearNetBIOSCache));
    assert Setting(a, Network(ClearARPCache)) == Setting(b, Network(ClearARPCache));
    assert Setting(a, Network(ClearWindowsNetworkingCache)) == Setting(b, Network(ClearWindowsNetworkingCache));
  }

  lemma LargeSystemFilesFieldsAgree(a: CleanerSettings, b: CleanerSettings)
    requires forall t :: Setting(a, t) == Setting(b, t)
    ensures a.removeWindowsOld == b.removeWindowsOld && a.cleanDriverStore == b.cleanDriverStore && a.cleanWindowsInstallerCache == b.cleanWindowsInstallerCache && a.disableHibernation == b.disableHibernation && a.cleanSystemRestorePoints == b.cleanSystemRestorePoints
  {
    assert Setting(a, Advanced(RemoveWindowsOld)) == Setting(b, Advanced(RemoveWindowsOld));
    assert Setting(a, Advanced(CleanDriverStore)) == Setting(b, Advanced(CleanDriverStore));
    assert Setting(a, Advanced(CleanWindowsInstallerCache)) == Setting(b, Advanced(CleanWindowsInstallerCache));
    assert Setting(a, Advanced(DisableHibernation)) == Setting(b, Advanced(DisableHibernation));
    assert Setting(a, Advanced(CleanSystemRestorePoints)) == Setting(b, Advanced(CleanSystemRestorePoints));
  }

  lemma RegistryOptimizationFieldsAgree(a: CleanerSettings, b: CleanerSettings)
    requires forall t :: Setting(a, t) == Setting(b, t)
    ensures a.clearMRULists == b.clearMRULists && a.cleanFileExtensionAssociations == b.cleanFileExtensionAssociations && a.cleanUninstallEntries == b.cleanUninstallEntries && a.cleanSharedDLLs == b.cleanSharedDLLs && a.cleanCOMRegistrations == b.cleanCOMRegistrations
  {
    assert Setting(a, PrivacyAndTracking(ClearMRULists)) == Setting(b, PrivacyAndTracking(ClearMRULists));
    assert Setting(a, Registry(CleanFileExtensionAssociations)) == Setting(b, Registry(CleanFileExtensionAssociations));
    assert Setting(a, Registry(CleanUninstallEntries)) == Setting(b, Registry(CleanUninstallEntries));
    assert Setting(a, Registry(CleanSharedDLLs)) == Setting(b, Registry(CleanSharedDLLs));
    assert Setting(a, Registry(CleanCOMRegistrations)) == Setting(b, Registry(CleanCOMRegistrations));
  }

  /** Applying a record to the boxes and persisting the boxes gives the record back:
      all 42 settings survive the round trip. */
  lemma ApplyThenPersist(s: CleanerSettings)
    ensures Persisted(Applied(s)) == s
  {
    forall t
      ensures Setting(Persisted(Applied(s)), t) == Setting(s, t)
    {
      SettingOfPersisted(Applied(s), t);
      AppliedShowsSetting(s, t);
    }
    SettingsExtensional(Persisted(Applied(s)), s);
  }

  /** A record whose every field holds the state of its task's box is the record
      `PersistSettings` writes. */
  lemma PersistedIsPointwise(s: CleanerSettings, boxes: CheckBoxes)
    requires forall t :: Setting(s, t) == BoxValue(boxes, t)
    ensures s == Persisted(boxes)
  {
    forall t
      ensures Setting(s, t) == Setting(Persisted(boxes), t)
    {
      SettingOfPersisted(boxes, t);
    }
    SettingsExtensional(s, Persisted(boxes));
  }

  /** A box that is checked or unchecked shows the same state again after persisting
      the boxes and applying the record. */
  lemma PersistThenApply(boxes: CheckBoxes, t: TaskId)
    requires t in boxes && boxes[t].Some?
    ensures t in Applied(Persisted(boxes)) && Applied(Persisted(boxes))[t] == boxes[t]
  {
    SettingOfPersisted(boxes, t);
    AppliedShowsSetting(Persisted(boxes), t);
  }

  /** Distinct tasks own distinct fields: checking one box and no other persists a record
      that selects that task and not the other. */
  lemma FieldsAreIndependent(t1: TaskId, t2: TaskId)
    requires t1 != t2
    ensures exists s :: Setting(s, t1) && !Setting(s, t2)
  {
    var boxes := map[t1 := Some(true)];
    SettingOfPersisted(boxes, t1);
    SettingOfPersisted(boxes, t2);
    assert Setting(Persisted(boxes), t1) && !Setting(Persisted(boxes), t2);
  }
}

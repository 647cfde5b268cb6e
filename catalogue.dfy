/**
 * The fixed catalogue of the 42 cleanup tasks the main window offers: one value per
 * check box, grouped by the category the window lists it under; the order in which
 * `CleanButton_Click` tests the boxes and runs the tasks; the text shown in the
 * progress panel while a task runs, and the name it contributes to the completion
 * report.
 */
module Catalogue {

  /** The tasks under "Quick Cleanup", in the order they run. */
  datatype QuickCleanupTask = RemoveJunkFiles | CleanSystemTemporaryFiles | EmptyRecycleBin | WipeBrowserData | ClearFileHistory
  {
    /** The place of the task within its category. */
    function Index(): nat
    {
      match this
      case RemoveJunkFiles => 0
      case CleanSystemTemporaryFiles => 1
      case EmptyRecycleBin => 2
      case WipeBrowserData => 3
      case ClearFileHistory => 4
    }

    function Label(): string
    {
      match this
      case RemoveJunkFiles => "Removing user temp files..."
      case CleanSystemTemporaryFiles => "Cleaning system temp/update caches..."
      case EmptyRecycleBin => "Emptying recycle bin..."
      case WipeBrowserData => "Wiping browser data..."
      case ClearFileHistory => "Clearing Explorer history..."
    }

    function ReportName(): string
    {
      match this
      case RemoveJunkFiles => "User temp files"
      case CleanSystemTemporaryFiles => "System temp/update caches"
      case EmptyRecycleBin => "Recycle bin"
      case WipeBrowserData => "Browser data"
      case ClearFileHistory => "Explorer history"
    }
  }

  /** The tasks under "Privacy & Tracking", in the order they run. */
  datatype PrivacyTask = RemoveWindowsDefenderHistory | ClearUserAssistData | ClearTypedPaths | ClearRecentApps | ClearClipboardHistory | ClearMRULists
  {
    /** The place of the task within its category. */
    function Index(): nat
    {
      match this
      case RemoveWindowsDefenderHistory => 0
      case ClearUserAssistData => 1
      case ClearTypedPaths => 2
      case ClearRecentApps => 3
      case ClearClipboardHistory => 4
      case ClearMRULists => 5
    }

    function Label(): string
    {
      match this
      case RemoveWindowsDefenderHistory => "Clearing Defender history..."
      case ClearUserAssistData => "Clearing UserAssist data..."
      case ClearTypedPaths => "Clearing typed paths..."
      case ClearRecentApps => "Clearing recent apps..."
      case ClearClipboardHistory => "Clearing clipboard history..."
      case ClearMRULists => "Clearing MRU lists..."
    }

    function ReportName(): string
    {
      match this
      case RemoveWindowsDefenderHistory => "Defender history"
      case ClearUserAssistData => "UserAssist data"
      case ClearTypedPaths => "Typed paths"
      case ClearRecentApps => "Recent apps"
      case ClearClipboardHistory => "Clipboard history"
      case ClearMRULists => "MRU lists"
    }
  }

  /** The tasks under "System Maintenance", in the order they run. */
  datatype SystemTask = ClearVisualCache | ClearFontCache | ClearWindowsStoreCache | CleanComponentStore | CleanWindowsUpdate
  {
    /** The place of the task within its category. */
    function Index(): nat
    {
      match this
      case ClearVisualCache => 0
      case ClearFontCache => 1
      case ClearWindowsStoreCache => 2
      case CleanComponentStore => 3
      case CleanWindowsUpdate => 4
    }

    function Label(): string
    {
      match this
      case ClearVisualCache => "Clearing icon/thumbnail cache..."
      case ClearFontCache => "Clearing font cache..."
      case ClearWindowsStoreCache => "Clearing Store cache..."
      case CleanComponentStore => "Cleaning component store..."
      case CleanWindowsUpdate => "Cleaning Windows Update..."
    }

    function ReportName(): string
    {
      match this
      case ClearVisualCache => "Icon/thumbnail cache"
      case ClearFontCache => "Font cache"
      case ClearWindowsStoreCache => "Store cache"
      case CleanComponentStore => "Component store"
      case CleanWindowsUpdate => "Windows Update"
    }
  }

  /** The tasks under "Logs & Diagnostics", in the order they run. */
  datatype LogsTask = RemoveDiagnosticsAndErrorReports | ClearEventLogs | ClearWindowsSetupLogs | ClearCrashDumps | ClearPerformanceMonitorData | ClearCBSLogs
  {
    /** The place of the task within its category. */
    function Index(): nat
    {
      match this
      case RemoveDiagnosticsAndErrorReports => 0
      case ClearEventLogs => 1
      case ClearWindowsSetupLogs => 2
      case ClearCrashDumps => 3
      case ClearPerformanceMonitorData => 4
      case ClearCBSLogs => 5
    }

    function Label(): string
    {
      match this
      case RemoveDiagnosticsAndErrorReports => "Removing diagnostics/error reports..."
      case ClearEventLogs => "Clearing event logs..."
      case ClearWindowsSetupLogs => "Clearing setup logs..."
      case ClearCrashDumps => "Clearing crash dumps..."
      case ClearPerformanceMonitorData => "Clearing performance data..."
      case ClearCBSLogs => "Clearing CBS logs..."
    }

    function ReportName(): string
    {
      match this
      case RemoveDiagnosticsAndErrorReports => "Diagnostics/error reports"
      case ClearEventLogs => "Event logs"
      case ClearWindowsSetupLogs => "Setup logs"
      case ClearCrashDumps => "Crash dumps"
      case ClearPerformanceMonitorData => "Performance data"
      case ClearCBSLogs => "CBS logs"
    }
  }

  /** The tasks under "Network", in the order they run. */
  datatype NetworkTask = FlushDNSCache | ClearNetBIOSCache | ClearARPCache | ClearWindowsNetworkingCache | ClearNetworkLocationCache | ClearBITSQueue
  {
    /** The place of the task within its category. */
    function Index(): nat
    {
      match this
      case FlushDNSCache => 0
      case ClearNetBIOSCache => 1
      case ClearARPCache => 2
      case ClearWindowsNetworkingCache => 3
      case ClearNetworkLocationCache => 4
      case ClearBITSQueue => 5
    }

    function Label(): string
    {
      match this
      case FlushDNSCache => "Flushing DNS cache..."
      case ClearNetBIOSCache => "Clearing NetBIOS cache..."
      case ClearARPCache => "Clearing ARP cache..."
      case ClearWindowsNetworkingCache => "Clearing network cache..."
      case ClearNetworkLocationCache => "Clearing network location cache..."
      case ClearBITSQueue => "Clearing BITS queue..."
    }

    function ReportName(): string
    {
      match this
      case FlushDNSCache => "DNS cache"
      case ClearNetBIOSCache => "NetBIOS cache"
      case ClearARPCache => "ARP cache"
      case ClearWindowsNetworkingCache => "Network cache"
      case ClearNetworkLocationCache => "Network location cache"
      case ClearBITSQueue => "BITS queue"
    }
  }

  /** The tasks under "Registry", in the order they run. */
  datatype RegistryTask = CleanRegistry | CleanFileExtensionAssociations | CleanUninstallEntries | CleanSharedDLLs | CleanCOMRegistrations | ClearMUICache
  {
    /** The place of the task within its category. */
    function Index(): nat
    {
      match this
      case CleanRegistry => 0
      case CleanFileExtensionAssociations => 1
      case CleanUninstallEntries => 2
      case CleanSharedDLLs => 3
      case CleanCOMRegistrations => 4
      case ClearMUICache => 5
    }

    function Label(): string
    {
      match this
      case CleanRegistry => "Cleaning registry run entries..."
      case CleanFileExtensionAssociations => "Cleaning file associations..."
      case CleanUninstallEntries => "Cleaning uninstall entries..."
      case CleanSharedDLLs => "Cleaning shared DLLs..."
      case CleanCOMRegistrations => "Cleaning COM registrations..."
      case ClearMUICache => "Clearing MUI cache..."
    }

    function ReportName(): string
    {
      match this
      case CleanRegistry => "Registry run entries"
      case CleanFileExtensionAssociations => "File associations"
      case CleanUninstallEntries => "Uninstall entries"
      case CleanSharedDLLs => "Shared DLLs"
      case CleanCOMRegistrations => "COM registrations"
      case ClearMUICache => "MUI cache"
    }
  }

  /** The tasks under "Advanced", in the order they run. */
  datatype AdvancedTask = RemoveEmptyDirectories | RemoveBrokenShortcuts | RemoveWindowsOld | CleanDriverStore | CleanWindowsInstallerCache | DisableHibernation | CleanSystemRestorePoints | RebuildSearchIndex
  {
    /** The place of the task within its category. */
    function Index(): nat
    {
      match this
      case RemoveEmptyDirectories => 0
      case RemoveBrokenShortcuts => 1
      case RemoveWindowsOld => 2
      case CleanDriverStore => 3
      case CleanWindowsInstallerCache => 4
      case DisableHibernation => 5
      case CleanSystemRestorePoints => 6
      case RebuildSearchIndex => 7
    }

    function Label(): string
    {
      match this
      case RemoveEmptyDirectories => "Removing empty directories..."
      case RemoveBrokenShortcuts => "Removing broken shortcuts..."
      case RemoveWindowsOld => "Removing Windows.old..."
      case CleanDriverStore => "Cleaning driver store..."
      case CleanWindowsInstallerCache => "Cleaning installer cache..."
      case DisableHibernation => "Disabling hibernation..."
      case CleanSystemRestorePoints => "Cleaning restore points..."
      case RebuildSearchIndex => "Rebuilding search index..."
    }

    function ReportName(): string
    {
      match this
      case RemoveEmptyDirectories => "Empty directories"
      case RemoveBrokenShortcuts => "Broken shortcuts"
      case RemoveWindowsOld => "Windows.old"
      case CleanDriverStore => "Driver store"
      case CleanWindowsInstallerCache => "Installer cache"
      case DisableHibernation => "Hibernation"
      case CleanSystemRestorePoints => "Restore points"
      case RebuildSearchIndex => "Search index"
    }
  }

  /** A task, as its category and its place in that category. Each task has one check
      box and one settings field, named after the task. */
  datatype TaskId =
      QuickCleanup(quickCleanup: QuickCleanupTask)
    | PrivacyAndTracking(privacyAndTracking: PrivacyTask)
    | SystemMaintenance(systemMaintenance: SystemTask)
    | LogsAndDiagnostics(logsAndDiagnostics: LogsTask)
    | Network(network: NetworkTask)
    | Registry(registry: RegistryTask)
    | Advanced(advanced: AdvancedTask)

  /** The order in which `CleanButton_Click` tests the check boxes and runs the tasks. */
  const RunOrder: seq<TaskId> := [
    QuickCleanup(RemoveJunkFiles),
    QuickCleanup(CleanSystemTemporaryFiles),
    QuickCleanup(EmptyRecycleBin),
    QuickCleanup(WipeBrowserData),
    QuickCleanup(ClearFileHistory),
    PrivacyAndTracking(RemoveWindowsDefenderHistory),
    PrivacyAndTracking(ClearUserAssistData),
    PrivacyAndTracking(ClearTypedPaths),
    PrivacyAndTracking(ClearRecentApps),
    PrivacyAndTracking(ClearClipboardHistory),
    PrivacyAndTracking(ClearMRULists),
    SystemMaintenance(ClearVisualCache),
    SystemMaintenance(ClearFontCache),
    SystemMaintenance(ClearWindowsStoreCache),
    SystemMaintenance(CleanComponentStore),
    SystemMaintenance(CleanWindowsUpdate),
    LogsAndDiagnostics(RemoveDiagnosticsAndErrorReports),
    LogsAndDiagnostics(ClearEventLogs),
    LogsAndDiagnostics(ClearWindowsSetupLogs),
    LogsAndDiagnostics(ClearCrashDumps),
    LogsAndDiagnostics(ClearPerformanceMonitorData),
    LogsAndDiagnostics(ClearCBSLogs),
    Network(FlushDNSCache),
    Network(ClearNetBIOSCache),
    Network(ClearARPCache),
    Network(ClearWindowsNetworkingCache),
    Network(ClearNetworkLocationCache),
    Network(ClearBITSQueue),
    Registry(CleanRegistry),
    Registry(CleanFileExtensionAssociations),
    Registry(CleanUninstallEntries),
    Registry(CleanSharedDLLs),
    Registry(CleanCOMRegistrations),
    Registry(ClearMUICache),
    Advanced(RemoveEmptyDirectories),
    Advanced(RemoveBrokenShortcuts),
    Advanced(RemoveWindowsOld),
    Advanced(CleanDriverStore),
    Advanced(CleanWindowsInstallerCache),
    Advanced(DisableHibernation),
    Advanced(CleanSystemRestorePoints),
    Advanced(RebuildSearchIndex)
  ]

  /** The position of a task in `RunOrder`. */
  function Position(t: TaskId): nat
  {
    match t
    case QuickCleanup(x) => x.Index()
    case PrivacyAndTracking(x) => 5 + x.Index()
    case SystemMaintenance(x) => 11 + x.Index()
    case LogsAndDiagnostics(x) => 16 + x.Index()
    case Network(x) => 22 + x.Index()
    case Registry(x) => 28 + x.Index()
    case Advanced(x) => 34 + x.Index()
  }

  /** The rank of a task's category in the order the window lists the categories. */
  function CategoryRank(t: TaskId): nat
  {
    match t
    case QuickCleanup(_) => 0
    case PrivacyAndTracking(_) => 1
    case SystemMaintenance(_) => 2
    case LogsAndDiagnostics(_) => 3
    case Network(_) => 4
    case Registry(_) => 5
    case Advanced(_) => 6
  }

  /** The text `RunTaskWithProgress` puts in the progress panel while the task runs. */
  function Label(t: TaskId): string
  {
    match t
    case QuickCleanup(x) => x.Label()
    case PrivacyAndTracking(x) => x.Label()
    case SystemMaintenance(x) => x.Label()
    case LogsAndDiagnostics(x) => x.Label()
    case Network(x) => x.Label()
    case Registry(x) => x.Label()
    case Advanced(x) => x.Label()
  }

  /** The name added to the list of completed tasks once the task has finished. */
  function ReportName(t: TaskId): string
  {
    match t
    case QuickCleanup(x) => x.ReportName()
    case PrivacyAndTracking(x) => x.ReportName()
    case SystemMaintenance(x) => x.ReportName()
    case LogsAndDiagnostics(x) => x.ReportName()
    case Network(x) => x.ReportName()
    case Registry(x) => x.ReportName()
    case Advanced(x) => x.ReportName()
  }

  /** The category rank of the task at each position, as a step function of the position. */
  function RankAt(i: nat): nat
  {
    if i < 5 then 0 else if i < 11 then 1 else if i < 16 then 2 else if i < 22 then 3 else if i < 28 then 4 else if i < 34 then 5 else 6
  }

  /** `RunOrder` lists every task, each at its own position. */
  lemma RunOrderHoldsEveryTask(t: TaskId)
    ensures Position(t) < |RunOrder| && RunOrder[Position(t)] == t
  {
    match t
    case QuickCleanup(x) => RunOrderHoldsQuickCleanup(x);
    case PrivacyAndTracking(x) => RunOrderHoldsPrivacyAndTracking(x);
    case SystemMaintenance(x) => RunOrderHoldsSystemMaintenance(x);
    case LogsAndDiagnostics(x) => RunOrderHoldsLogsAndDiagnostics(x);
    case Network(x) => RunOrderHoldsNetwork(x);
    case Registry(x) => RunOrderHoldsRegistry(x);
    case Advanced(x) => RunOrderHoldsAdvanced(x);
  }

  lemma RunOrderHoldsQuickCleanup(x: QuickCleanupTask)
    ensures Position(QuickCleanup(x)) < |RunOrder| && RunOrder[Position(QuickCleanup(x))] == QuickCleanup(x)
  {
    match x
    case RemoveJunkFiles => assert RunOrder[0] == QuickCleanup(x);
    case CleanSystemTemporaryFiles => assert RunOrder[1] == QuickCleanup(x);
    case EmptyRecycleBin => assert RunOrder[2] == QuickCleanup(x);
    case WipeBrowserData => assert RunOrder[3] == QuickCleanup(x);
    case ClearFileHistory => assert RunOrder[4] == QuickCleanup(x);
  }

  lemma RunOrderHoldsPrivacyAndTracking(x: PrivacyTask)
    ensures Position(PrivacyAndTracking(x)) < |RunOrder| && RunOrder[Position(PrivacyAndTracking(x))] == PrivacyAndTracking(x)
  {
    match x
    case RemoveWindowsDefenderHistory => assert RunOrder[5] == PrivacyAndTracking(x);
    case ClearUserAssistData => assert RunOrder[6] == PrivacyAndTracking(x);
    case ClearTypedPaths => assert RunOrder[7] == PrivacyAndTracking(x);
    case ClearRecentApps => assert RunOrder[8] == PrivacyAndTracking(x);
    case ClearClipboardHistory => assert RunOrder[9] == PrivacyAndTracking(x);
    case ClearMRULists => assert RunOrder[10] == PrivacyAndTracking(x);
  }

  lemma RunOrderHoldsSystemMaintenance(x: SystemTask)
    ensures Position(SystemMaintenance(x)) < |RunOrder| && RunOrder[Position(SystemMaintenance(x))] == SystemMaintenance(x)
  {
    match x
    case ClearVisualCache => assert RunOrder[11] == SystemMaintenance(x);
    case ClearFontCache => assert RunOrder[12] == SystemMaintenance(x);
    case ClearWindowsStoreCache => assert RunOrder[13] == SystemMaintenance(x);
    case CleanComponentStore => assert RunOrder[14] == SystemMaintenance(x);
    case CleanWindowsUpdate => assert RunOrder[15] == SystemMaintenance(x);
  }

  lemma RunOrderHoldsLogsAndDiagnostics(x: LogsTask)
    ensures Position(LogsAndDiagnostics(x)) < |RunOrder| && RunOrder[Position(LogsAndDiagnostics(x))] == LogsAndDiagnostics(x)
  {
    match x
    case RemoveDiagnosticsAndErrorReports => assert RunOrder[16] == LogsAndDiagnostics(x);
    case ClearEventLogs => assert RunOrder[17] == LogsAndDiagnostics(x);
    case ClearWindowsSetupLogs => assert RunOrder[18] == LogsAndDiagnostics(x);
    case ClearCrashDumps => assert RunOrder[19] == LogsAndDiagnostics(x);
    case ClearPerformanceMonitorData => assert RunOrder[20] == LogsAndDiagnostics(x);
    case ClearCBSLogs => assert RunOrder[21] == LogsAndDiagnostics(x);
  }

  lemma RunOrderHoldsNetwork(x: NetworkTask)
    ensures Position(Network(x)) < |RunOrder| && RunOrder[Position(Network(x))] == Network(x)
  {
    match x
    case FlushDNSCache => assert RunOrder[22] == Network(x);
    case ClearNetBIOSCache => assert RunOrder[23] == Network(x);
    case ClearARPCache => assert RunOrder[24] == Network(x);
    case ClearWindowsNetworkingCache => assert RunOrder[25] == Network(x);
    case ClearNetworkLocationCache => assert RunOrder[26] == Network(x);
    case ClearBITSQueue => assert RunOrder[27] == Network(x);
  }

  lemma RunOrderHoldsRegistry(x: RegistryTask)
    ensures Position(Registry(x)) < |RunOrder| && RunOrder[Position(Registry(x))] == Registry(x)
  {
    match x
    case CleanRegistry => assert RunOrder[28] == Registry(x);
    case CleanFileExtensionAssociations => assert RunOrder[29] == Registry(x);
    case CleanUninstallEntries => assert RunOrder[30] == Registry(x);
    case CleanSharedDLLs => assert RunOrder[31] == Registry(x);
    case CleanCOMRegistrations => assert RunOrder[32] == Registry(x);
    case ClearMUICache => assert RunOrder[33] == Registry(x);
  }

  lemma RunOrderHoldsAdvanced(x: AdvancedTask)
    ensures Position(Advanced(x)) < |RunOrder| && RunOrder[Position(Advanced(x))] == Advanced(x)
  {
    match x
    case RemoveEmptyDirectories => assert RunOrder[34] == Advanced(x);
    case RemoveBrokenShortcuts => assert RunOrder[35] == Advanced(x);
    case RemoveWindowsOld => assert RunOrder[36] == Advanced(x);
    case CleanDriverStore => assert RunOrder[37] == Advanced(x);
    case CleanWindowsInstallerCache => assert RunOrder[38] == Advanced(x);
    case DisableHibernation => assert RunOrder[39] == Advanced(x);
    case CleanSystemRestorePoints => assert RunOrder[40] == Advanced(x);
    case RebuildSearchIndex => assert RunOrder[41] == Advanced(x);
  }

  /** `Position` inverts `RunOrder`, so no task is listed twice. */
  lemma PositionInvertsRunOrder(i: nat)
    requires i < |RunOrder|
    ensures Position(RunOrder[i]) == i
  {
    if i < 5 { PositionInvertsRunOrderForQuickCleanup(i); }
    else if i < 11 { PositionInvertsRunOrderForPrivacyAndTracking(i); }
    else if i < 16 { PositionInvertsRunOrderForSystemMaintenance(i); }
    else if i < 22 { PositionInvertsRunOrderForLogsAndDiagnostics(i); }
    else if i < 28 { PositionInvertsRunOrderForNetwork(i); }
    else if i < 34 { PositionInvertsRunOrderForRegistry(i); }
    else { PositionInvertsRunOrderForAdvanced(i); }
  }

  lemma PositionInvertsRunOrderForQuickCleanup(i: nat)
    requires 0 <= i < 5
    ensures Position(RunOrder[i]) == i
  {
    if i == 0 { assert RunOrder[0] == QuickCleanup(RemoveJunkFiles); }
    else if i == 1 { assert RunOrder[1] == QuickCleanup(CleanSystemTemporaryFiles); }
    else if i == 2 { assert RunOrder[2] == QuickCleanup(EmptyRecycleBin); }
    else if i == 3 { assert RunOrder[3] == QuickCleanup(WipeBrowserData); }
    else { assert RunOrder[4] == QuickCleanup(ClearFileHistory); }
  }

  lemma PositionInvertsRunOrderForPrivacyAndTracking(i: nat)
    requires 5 <= i < 11
    ensures Position(RunOrder[i]) == i
  {
    if i == 5 { assert RunOrder[5] == PrivacyAndTracking(RemoveWindowsDefenderHistory); }
    else if i == 6 { assert RunOrder[6] == PrivacyAndTracking(ClearUserAssistData); }
    else if i == 7 { assert RunOrder[7] == PrivacyAndTracking(ClearTypedPaths); }
    else if i == 8 { assert RunOrder[8] == PrivacyAndTracking(ClearRecentApps); }
    else if i == 9 { assert RunOrder[9] == PrivacyAndTracking(ClearClipboardHistory); }
    else { assert RunOrder[10] == PrivacyAndTracking(ClearMRULists); }
  }

  lemma PositionInvertsRunOrderForSystemMaintenance(i: nat)
    requires 11 <= i < 16
    ensures Position(RunOrder[i]) == i
  {
    if i == 11 { assert RunOrder[11] == SystemMaintenance(ClearVisualCache); }
    else if i == 12 { assert RunOrder[12] == SystemMaintenance(ClearFontCache); }
    else if i == 13 { assert RunOrder[13] == SystemMaintenance(ClearWindowsStoreCache); }
    else if i == 14 { assert RunOrder[14] == SystemMaintenance(CleanComponentStore); }
    else { assert RunOrder[15] == SystemMaintenance(CleanWindowsUpdate); }
  }

  lemma PositionInvertsRunOrderForLogsAndDiagnostics(i: nat)
    requires 16 <= i < 22
    ensures Position(RunOrder[i]) == i
  {
    if i == 16 { assert RunOrder[16] == LogsAndDiagnostics(RemoveDiagnosticsAndErrorReports); }
    else if i == 17 { assert RunOrder[17] == LogsAndDiagnostics(ClearEventLogs); }
    else if i == 18 { assert RunOrder[18] == LogsAndDiagnostics(ClearWindowsSetupLogs); }
    else if i == 19 { assert RunOrder[19] == LogsAndDiagnostics(ClearCrashDumps); }
    else if i == 20 { assert RunOrder[20] == LogsAndDiagnostics(ClearPerformanceMonitorData); }
    else { assert RunOrder[21] == LogsAndDiagnostics(ClearCBSLogs); }
  }

  lemma PositionInvertsRunOrderForNetwork(i: nat)
    requires 22 <= i < 28
    ensures Position(RunOrder[i]) == i
  {
    if i == 22 { assert RunOrder[22] == Network(FlushDNSCache); }
    else if i == 23 { assert RunOrder[23] == Network(ClearNetBIOSCache); }
    else if i == 24 { assert RunOrder[24] == Network(ClearARPCache); }
    else if i == 25 { assert RunOrder[25] == Network(ClearWindowsNetworkingCache); }
    else if i == 26 { assert RunOrder[26] == Network(ClearNetworkLocationCache); }
    else { assert RunOrder[27] == Network(ClearBITSQueue); }
  }

  lemma PositionInvertsRunOrderForRegistry(i: nat)
    requires 28 <= i < 34
    ensures Position(RunOrder[i]) == i
  {
    if i == 28 { assert RunOrder[28] == Registry(CleanRegistry); }
    else if i == 29 { assert RunOrder[29] == Registry(CleanFileExtensionAssociations); }
    else if i == 30 { assert RunOrder[30] == Registry(CleanUninstallEntries); }
    else if i == 31 { assert RunOrder[31] == Registry(CleanSharedDLLs); }
    else if i == 32 { assert RunOrder[32] == Registry(CleanCOMRegistrations); }
    else { assert RunOrder[33] == Registry(ClearMUICache); }
  }

  lemma PositionInvertsRunOrderForAdvanced(i: nat)
    requires 34 <= i < 42
    ensures Position(RunOrder[i]) == i
  {
    if i == 34 { assert RunOrder[34] == Advanced(RemoveEmptyDirectories); }
    else if i == 35 { assert RunOrder[35] == Advanced(RemoveBrokenShortcuts); }
    else if i == 36 { assert RunOrder[36] == Advanced(RemoveWindowsOld); }
    else if i == 37 { assert RunOrder[37] == Advanced(CleanDriverStore); }
    else if i == 38 { assert RunOrder[38] == Advanced(CleanWindowsInstallerCache); }
    else if i == 39 { assert RunOrder[39] == Advanced(DisableHibernation); }
    else if i == 40 { assert RunOrder[40] == Advanced(CleanSystemRestorePoints); }
    else { assert RunOrder[41] == Advanced(RebuildSearchIndex); }
  }

  /** The 42 entries of `RunOrder` are pairwise distinct. */
  lemma RunOrderDistinct(i: nat, j: nat)
    requires i < j < |RunOrder|
    ensures RunOrder[i] != RunOrder[j]
  {
    PositionInvertsRunOrder(i);
    PositionInvertsRunOrder(j);
  }

  /** The category rank of a task is the step function `RankAt` of its position. */
  lemma CategoryIsStepFunction(t: TaskId)
    ensures CategoryRank(t) == RankAt(Position(t))
  {
  }

  /** The tasks are grouped by category: a task that runs earlier never belongs to a
      later category (Quick Cleanup, Privacy & Tracking, System Maintenance, Logs &
      Diagnostics, Network, Registry, Advanced). */
  lemma RunOrderGroupedByCategory(t1: TaskId, t2: TaskId)
    requires Position(t1) <= Position(t2)
    ensures CategoryRank(t1) <= CategoryRank(t2)
  {
    CategoryIsStepFunction(t1);
    CategoryIsStepFunction(t2);
  }
}

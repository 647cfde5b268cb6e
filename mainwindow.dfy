/**
 * The main window's run coordinator (`MainWindow`): it copies the settings record to
 * the 42 check boxes and back, refuses to run with nothing selected, asks for
 * confirmation, runs the checked tasks one after another in catalogue order while
 * showing each task's label and counting completed tasks, and reports how many tasks
 * ran and how much free space was reclaimed.
 *
 * The cleanup actions themselves are opaque steps: running a task appends a `TaskRan`
 * event to the window's trace and changes nothing else. Everything else the window
 * does outside its own fields (saving the settings, showing a dialog, reading the free
 * space of the system drive, asking a process to close) is an event as well.
 */
module MainWindow {
  import opened Wrappers
  import opened Text
  import opened Catalogue
  import opened Settings
  import opened CustomDialog
  import opened ByteSize

  /** The effects of the window outside its own fields, in the order they happen. */
  datatype Event =
    | SettingsSaved(saved: CleanerSettings)
    | DialogShown(title: string, buttons: MessageBoxButton, icon: MessageBoxImage)
    | FreeSpaceRead
    | CloseRequested(process: string)
      // the task was awaited, and completed or threw, while the progress panel showed
      // `progressText`
    | TaskRan(task: TaskId, progressText: string)
      // the progress bar was set to `completed / total` of its range
    | ProgressBarSet(completed: int, total: int)
      // the completion report: the finished tasks (the dialog shows their number)
      // and the reclaimed space as a value and a unit
    | CompletionReport(tasks: seq<string>, reclaimed: int, amount: real, unit: string)

  const NoSelectionTitle: string := "Clean"
  const NoSelectionMessage: string := "Select at least one cleanup option."
  const ConfirmMessage: string :=
    "The selected operations will modify files, caches, and/or the registry. Changes cannot be undone.\n\nContinue?"
  // the fixed parts of the two messages whose text depends on the run
  const CloseAppsMessage: string := "These apps are running and may lock files: "
  const ErrorMessage: string := "An error occurred: "
  const ConfirmTitle: string := "Confirm cleaning"
  const CloseAppsTitle: string := "Close apps"
  const CompleteTitle: string := "Cleaning complete"
  const ErrorTitle: string := "Error"
  const IdleProgressText: string := "Initializing..."

  /** The check box of the browser-data task, which decides whether browsers are closed. */
  const BrowserDataTask: TaskId := QuickCleanup(WipeBrowserData)

  /** The process names `EnsureProcessesClosed` looks for when browser data is selected. */
  const BrowserProcesses: seq<string> :=
    ["chrome", "msedge", "brave", "vivaldi", "opera", "arc", "firefox", "waterfox", "palemoon"]

  /** `box.IsChecked == true` for the box of a task. */
  predicate Checked(boxes: CheckBoxes, t: TaskId)
  {
    t in boxes && boxes[t] == Some(true)
  }

  // ---------------------------------------------------------------------------
  // Selection

  /** The checked tasks among `ts`, in the order of `ts`. */
  function SelectedIn(ts: seq<TaskId>, boxes: CheckBoxes): seq<TaskId>
  {
    if ts == [] then []
    else
      var last := ts[|ts| - 1];
      SelectedIn(ts[..|ts| - 1], boxes) + (if Checked(boxes, last) then [last] else [])
  }

  /** The tasks a run performs: the checked ones, in run order. */
  function Selected(boxes: CheckBoxes): seq<TaskId>
  {
    SelectedIn(RunOrder, boxes)
  }

  /** Positions strictly increase along `ts`: `ts` follows the run order and holds no
      task twice. */
  predicate InRunOrder(ts: seq<TaskId>)
  {
    forall i, j :: 0 <= i < j < |ts| ==> Position(ts[i]) < Position(ts[j])
  }

  /** A task is selected from `ts` exactly when it occurs in `ts` and its box is checked. */
  lemma {:induction false} SelectedInMembers(ts: seq<TaskId>, boxes: CheckBoxes, t: TaskId)
    ensures t in SelectedIn(ts, boxes) <==> t in ts && Checked(boxes, t)
  {
    if ts != [] {
      var init := ts[..|ts| - 1];
      SelectedInMembers(init, boxes, t);
      assert ts == init + [ts[|ts| - 1]];
    }
  }

  /** Selecting from a sequence in run order keeps it in run order. */
  lemma {:induction false} SelectedInKeepsOrder(ts: seq<TaskId>, boxes: CheckBoxes)
    requires InRunOrder(ts)
    ensures InRunOrder(SelectedIn(ts, boxes))
    ensures |SelectedIn(ts, boxes)| <= |ts|
  {
    if ts != [] {
      var init, last := ts[..|ts| - 1], ts[|ts| - 1];
      assert InRunOrder(init) by {
        forall i, j | 0 <= i < j < |init|
          ensures Position(init[i]) < Position(init[j])
        {
          assert init[i] == ts[i] && init[j] == ts[j];
        }
      }
      SelectedInKeepsOrder(init, boxes);
      var s := SelectedIn(init, boxes);
      forall k | 0 <= k < |s|
        ensures Position(s[k]) < Position(last)
      {
        SelectedInMembers(init, boxes, s[k]);
        var i :| 0 <= i < |init| && init[i] == s[k];
        assert ts[i] == s[k];
      }
    }
  }

  /** The selection from a prefix is a prefix of the selection. */
  lemma {:induction false} SelectedInPrefix(ts: seq<TaskId>, boxes: CheckBoxes, i: nat)
    requires i <= |ts|
    ensures var p, s := SelectedIn(ts[..i], boxes), SelectedIn(ts, boxes);
      |p| <= |s| && p == s[..|p|]
    decreases |ts| - i
  {
    if i < |ts| {
      assert ts[..i + 1][..i] == ts[..i];
      SelectedInPrefix(ts, boxes, i + 1);
    } else {
      assert ts[..i] == ts;
    }
  }

  /** `RunOrder` is in run order. */
  lemma RunOrderIsInRunOrder()
    ensures InRunOrder(RunOrder)
  {
    forall i, j | 0 <= i < j < |RunOrder|
      ensures Position(RunOrder[i]) < Position(RunOrder[j])
    {
      PositionInvertsRunOrder(i);
      PositionInvertsRunOrder(j);
    }
  }

  /** The selected tasks are exactly the checked ones, each once, in run order (and so
      grouped by category), and there are at most 42 of them. */
  lemma SelectedIsCheckedInRunOrder(boxes: CheckBoxes)
    ensures forall t :: t in Selected(boxes) <==> Checked(boxes, t)
    ensures InRunOrder(Selected(boxes)) && |Selected(boxes)| <= |RunOrder|
    ensures forall i, j :: 0 <= i < j < |Selected(boxes)| ==>
              CategoryRank(Selected(boxes)[i]) <= CategoryRank(Selected(boxes)[j])
  {
    forall t
      ensures t in Selected(boxes) <==> Checked(boxes, t)
    {
      SelectedInMembers(RunOrder, boxes, t);
      RunOrderHoldsEveryTask(t);
    }
    RunOrderIsInRunOrder();
    SelectedInKeepsOrder(RunOrder, boxes);
    var s := Selected(boxes);
    forall i, j | 0 <= i < j < |s|
      ensures CategoryRank(s[i]) <= CategoryRank(s[j])
    {
      RunOrderGroupedByCategory(s[i], s[j]);
    }
  }

  /** Nothing is selected exactly when no box is checked. */
  lemma NothingSelectedIffNoneChecked(boxes: CheckBoxes)
    ensures Selected(boxes) == [] <==> forall t :: !Checked(boxes, t)
  {
    SelectedIsCheckedInRunOrder(boxes);
    if Selected(boxes) != [] {
      assert Selected(boxes)[0] in Selected(boxes);
    }
  }

  /** One more task of the run order: the selection grows by that task when its box is
      checked, and what has been selected so far is a prefix of the whole selection. */
  lemma SelectionStep(ts: seq<TaskId>, boxes: CheckBoxes, i: nat)
    requires i < |ts|
    ensures var done := SelectedIn(ts[..i], boxes);
      && SelectedIn(ts[..i + 1], boxes) == done + (if Checked(boxes, ts[i]) then [ts[i]] else [])
      && |done| <= |SelectedIn(ts, boxes)| && SelectedIn(ts, boxes)[..|done|] == done
      && (Checked(boxes, ts[i]) ==> |done| < |SelectedIn(ts, boxes)| && SelectedIn(ts, boxes)[|done|] == ts[i])
  {
    assert ts[..i + 1][..i] == ts[..i];
    SelectedInPrefix(ts, boxes, i);
    SelectedInPrefix(ts, boxes, i + 1);
  }

  lemma WholeSequence<T>(s: seq<T>)
    ensures s[..|s|] == s
  {
  }

  lemma AppendIsAssociative<T>(a: seq<T>, b: seq<T>, c: seq<T>)
    ensures a + (b + c) == (a + b) + c
  {
  }

  // ---------------------------------------------------------------------------
  // The events of a run

  /** The report names of the finished tasks, in order. */
  function ReportNames(done: seq<TaskId>): seq<string>
  {
    if done == [] then [] else ReportNames(done[..|done| - 1]) + [ReportName(done[|done| - 1])]
  }

  /** The k-th report name is that of the k-th finished task. */
  lemma {:induction false} ReportNamesIndex(done: seq<TaskId>)
    ensures |ReportNames(done)| == |done|
    ensures forall k :: 0 <= k < |done| ==> ReportNames(done)[k] == ReportName(done[k])
  {
    if done != [] {
      var init := done[..|done| - 1];
      ReportNamesIndex(init);
      forall k | 0 <= k < |init|
        ensures init[k] == done[k]
      {
      }
    }
  }

  /** The events `RunTaskWithProgress` leaves for the tasks of `done`, run in order,
      out of `total` selected tasks. */
  function RunEvents(done: seq<TaskId>, total: int): seq<Event>
  {
    if done == [] then []
    else
      var last := done[|done| - 1];
      RunEvents(done[..|done| - 1], total) + [TaskRan(last, Label(last)), ProgressBarSet(|done|, total)]
  }

  lemma ReportNamesSnoc(done: seq<TaskId>, t: TaskId)
    ensures ReportNames(done + [t]) == ReportNames(done) + [ReportName(t)]
  {
    assert (done + [t])[..|done|] == done;
  }

  lemma RunEventsSnoc(done: seq<TaskId>, t: TaskId, total: int)
    ensures RunEvents(done + [t], total) == RunEvents(done, total) + [TaskRan(t, Label(t)), ProgressBarSet(|done| + 1, total)]
  {
    assert (done + [t])[..|done|] == done;
  }

  /** The run events alternate: the k-th task is awaited while its label is shown, and then
      the bar is set to k + 1 completed tasks. */
  lemma {:induction false} RunEventsShape(done: seq<TaskId>, total: int)
    ensures |RunEvents(done, total)| == 2 * |done|
    ensures forall k :: 0 <= k < |done| ==>
              RunEvents(done, total)[2 * k] == TaskRan(done[k], Label(done[k]))
              && RunEvents(done, total)[2 * k + 1] == ProgressBarSet(k + 1, total)
  {
    if done != [] {
      var init := done[..|done| - 1];
      RunEventsShape(init, total);
      forall k | 0 <= k < |init|
        ensures init[k] == done[k]
      {
      }
    }
  }

  /** Read the other way round: an event that runs a task is the run of the task at half
      its index, shown with that task's label, and a progress event sets the bar to the
      number of tasks run so far, between 1 and |done|; the last event sets it to |done|. */
  lemma RunEventsIndex(done: seq<TaskId>, total: int)
    ensures var ev := RunEvents(done, total);
      && |ev| == 2 * |done|
      && (forall k :: 0 <= k < |ev| && ev[k].TaskRan? ==>
            k % 2 == 0 && ev[k] == TaskRan(done[k / 2], Label(done[k / 2])))
      && (forall k :: 0 <= k < |ev| && ev[k].ProgressBarSet? ==>
            k % 2 == 1 && ev[k] == ProgressBarSet(k / 2 + 1, total) && 1 <= k / 2 + 1 <= |done|)
      && (done != [] ==> ev[|ev| - 1] == ProgressBarSet(|done|, total))
  {
    var ev := RunEvents(done, total);
    RunEventsShape(done, total);
    forall k | 0 <= k < |ev|
      ensures ev[k].TaskRan? ==> k % 2 == 0 && ev[k] == TaskRan(done[k / 2], Label(done[k / 2]))
      ensures ev[k].ProgressBarSet? ==> k % 2 == 1 && ev[k] == ProgressBarSet(k / 2 + 1, total)
    {
      if k % 2 == 0 {
        assert ev[2 * (k / 2)] == TaskRan(done[k / 2], Label(done[k / 2]));
      } else {
        assert ev[2 * (k / 2) + 1] == ProgressBarSet(k / 2 + 1, total);
      }
    }
    if done != [] {
      assert ev[2 * (|done| - 1) + 1] == ProgressBarSet(|done|, total);
    }
  }

  /** In the events of a whole run, a task runs exactly when its box is checked. */
  lemma RunsExactlyTheCheckedTasks(boxes: CheckBoxes, t: TaskId)
    ensures var sel := Selected(boxes);
      var ev := RunEvents(sel, |sel|);
      Checked(boxes, t) <==> exists k :: 0 <= k < |ev| && ev[k] == TaskRan(t, Label(t))
  {
    var sel := Selected(boxes);
    var ev := RunEvents(sel, |sel|);
    RunEventsShape(sel, |sel|);
    RunEventsIndex(sel, |sel|);
    SelectedIsCheckedInRunOrder(boxes);
    if Checked(boxes, t) {
      var j :| 0 <= j < |sel| && sel[j] == t;
      assert ev[2 * j] == TaskRan(t, Label(t));
    }
  }

  /** In the events of a whole run, tasks run in run order, so no task runs twice, and
      the completed count on the bar never exceeds the number of selected tasks. */
  lemma RunsInRunOrder(boxes: CheckBoxes)
    ensures var sel := Selected(boxes);
      var ev := RunEvents(sel, |sel|);
      && (forall k1, k2 :: 0 <= k1 < k2 < |ev| && ev[k1].TaskRan? && ev[k2].TaskRan? ==>
            Position(ev[k1].task) < Position(ev[k2].task))
      && (forall k :: 0 <= k < |ev| && ev[k].ProgressBarSet? ==> ev[k].completed <= ev[k].total)
  {
    var sel := Selected(boxes);
    RunEventsIndex(sel, |sel|);
    SelectedIsCheckedInRunOrder(boxes);
  }

  // ---------------------------------------------------------------------------
  // Pure helpers of the window

  /** `Math.Max(0, freeAfter - freeBefore)`: the space the run freed, never negative. */
  function Reclaimed(freeBefore: int, freeAfter: int): (r: int)
    ensures r >= 0
    ensures freeAfter >= freeBefore ==> r == freeAfter - freeBefore
    ensures freeAfter <= freeBefore ==> r == 0
  {
    if freeAfter - freeBefore > 0 then freeAfter - freeBefore else 0
  }

  /** The process names to close: the nine browsers when browser data is selected, and
      none otherwise. */
  function ProcessNames(browsersSelected: bool): seq<string>
  {
    if browsersSelected then BrowserProcesses else []
  }

  /** The running processes whose name is in `names`, up to case, in order. */
  function Matching(names: seq<string>, running: seq<string>): seq<string>
  {
    if running == [] then []
    else
      var last := running[|running| - 1];
      Matching(names, running[..|running| - 1]) + (if ContainsIgnoreCase(names, last) then [last] else [])
  }

  /** Exactly the running processes named in `names` are matched; with no names nothing
      is. */
  lemma {:induction false} MatchingMembers(names: seq<string>, running: seq<string>, p: string)
    ensures p in Matching(names, running) <==> p in running && ContainsIgnoreCase(names, p)
    ensures names == [] ==> Matching(names, running) == []
  {
    if running != [] {
      var init := running[..|running| - 1];
      MatchingMembers(names, init, p);
      assert running == init + [running[|running| - 1]];
    }
  }

  lemma MatchingStep(names: seq<string>, running: seq<string>, i: nat)
    requires i < |running|
    ensures Matching(names, running[..i + 1])
      == Matching(names, running[..i]) + (if ContainsIgnoreCase(names, running[i]) then [running[i]] else [])
  {
    assert running[..i + 1][..i] == running[..i];
  }

  /** The requests to close each matched process, in order. */
  function CloseRequests(processes: seq<string>): seq<Event>
  {
    if processes == [] then []
    else CloseRequests(processes[..|processes| - 1]) + [CloseRequested(processes[|processes| - 1])]
  }

  lemma CloseRequestsStep(processes: seq<string>, i: nat)
    requires i < |processes|
    ensures CloseRequests(processes[..i + 1]) == CloseRequests(processes[..i]) + [CloseRequested(processes[i])]
  {
    assert processes[..i + 1][..i] == processes[..i];
  }

  /** What `EnsureProcessesClosed` leaves: nothing when no named process runs; otherwise
      the "Close apps" question, followed by a close request per matched process if the
      answer is Yes. */
  function CloseEvents(browsersSelected: bool, running: seq<string>, answer: MessageBoxResult): seq<Event>
  {
    var matched := Matching(ProcessNames(browsersSelected), running);
    if matched == [] then []
    else if answer == YesResult then [DialogShown(CloseAppsTitle, YesNo, Question)] + CloseRequests(matched)
    else [DialogShown(CloseAppsTitle, YesNo, Question)]
  }

  /** Only running browsers are ever asked to close, and only after a Yes; with browser
      data unselected nothing is shown and nothing is closed. */
  lemma CloseEventsOnlyCloseBrowsers(browsersSelected: bool, running: seq<string>, answer: MessageBoxResult)
    ensures !browsersSelected ==> CloseEvents(browsersSelected, running, answer) == []
    ensures answer != YesResult ==> forall e :: e in CloseEvents(browsersSelected, running, answer) ==> !e.CloseRequested?
    ensures forall e :: e in CloseEvents(browsersSelected, running, answer) && e.CloseRequested? ==>
              browsersSelected && e.process in running && ContainsIgnoreCase(BrowserProcesses, e.process)
  {
    MatchingMembers(ProcessNames(browsersSelected), running, "");
    var matched := Matching(ProcessNames(browsersSelected), running);
    forall e | e in CloseRequests(matched)
      ensures e.CloseRequested? && e.process in matched
    {
      CloseRequestsFor(matched, e);
    }
    forall e | e in CloseEvents(browsersSelected, running, answer) && e.CloseRequested?
      ensures browsersSelected && e.process in running && ContainsIgnoreCase(BrowserProcesses, e.process)
    {
      assert e in CloseRequests(matched);
      MatchingMembers(ProcessNames(browsersSelected), running, e.process);
    }
  }

  /** A close request names one of the matched processes. */
  lemma {:induction false} CloseRequestsFor(processes: seq<string>, e: Event)
    requires e in CloseRequests(processes)
    ensures e.CloseRequested? && e.process in processes
  {
    var init := processes[..|processes| - 1];
    if e in CloseRequests(init) {
      CloseRequestsFor(init, e);
    }
  }

  // ---------------------------------------------------------------------------
  // The events of a click on Clean

  /** A run starts: something is selected and the confirmation was answered Yes. */
  predicate Confirmed(boxes: CheckBoxes, confirmAnswer: MessageBoxResult)
  {
    Selected(boxes) != [] && confirmAnswer == YesResult
  }

  /** Whether the selected task at index `fault` exists, so that the run faults. */
  predicate Faults(boxes: CheckBoxes, fault: Option<nat>)
  {
    fault.Some? && fault.value < |Selected(boxes)|
  }

  /** How many tasks a confirmed run completes. */
  function CompletedCount(boxes: CheckBoxes, fault: Option<nat>): int
  {
    if Faults(boxes, fault) then fault.value else |Selected(boxes)|
  }

  /** The events of the tasks and of the report: the runs of the selected tasks, then
      the second free-space reading and the report of the finished tasks and of the
      reclaimed space; or, when the task at index `fault` faults, the error message
      right after that task started. */
  function OutcomeEvents(boxes: CheckBoxes, freeBefore: int, freeAfter: int, fault: Option<nat>): seq<Event>
  {
    var sel := Selected(boxes);
    if Faults(boxes, fault) then
      var k := fault.value;
      RunEvents(sel[..k], |sel|) + [TaskRan(sel[k], Label(sel[k]))] + [DialogShown(ErrorTitle, OK, Error)]
    else
      var r := Reclaimed(freeBefore, freeAfter);
      RunEvents(sel, |sel|)
      + [FreeSpaceRead, CompletionReport(ReportNames(sel), r, Amount(r), Units[UnitFor(r)]),
         DialogShown(CompleteTitle, OK, Information)]
  }

  /** The events of a confirmed run: `EnsureProcessesClosed`, the first free-space
      reading, and the tasks and the report. */
  function CleanupEvents(boxes: CheckBoxes, closeAnswer: MessageBoxResult, running: seq<string>,
                         freeBefore: int, freeAfter: int, fault: Option<nat>): seq<Event>
  {
    CloseEvents(Checked(boxes, BrowserDataTask), running, closeAnswer) + [FreeSpaceRead]
    + OutcomeEvents(boxes, freeBefore, freeAfter, fault)
  }

  /** The events of a click on Clean after the settings are saved: a notice when nothing
      is selected, or the confirmation question, followed by the run when the answer is
      Yes. */
  function ClickEvents(boxes: CheckBoxes, confirmAnswer: MessageBoxResult, closeAnswer: MessageBoxResult,
                       running: seq<string>, freeBefore: int, freeAfter: int, fault: Option<nat>): seq<Event>
  {
    if Selected(boxes) == [] then [DialogShown(NoSelectionTitle, OK, Information)]
    else if confirmAnswer != YesResult then [DialogShown(ConfirmTitle, YesNo, Warning)]
    else [DialogShown(ConfirmTitle, YesNo, Warning)] + CleanupEvents(boxes, closeAnswer, running, freeBefore, freeAfter, fault)
  }

  /** Every task start in the events of a run names one of the done tasks, with its label. */
  lemma RunEventsStartDoneTasks(done: seq<TaskId>, total: int, e: Event)
    requires e in RunEvents(done, total) && e.TaskRan?
    ensures e.task in done && e.progressText == Label(e.task)
  {
    var ev := RunEvents(done, total);
    RunEventsIndex(done, total);
    var k :| 0 <= k < |ev| && ev[k] == e;
  }

  /** The closing step starts no task. */
  lemma CloseEventsStartNoTask(browsersSelected: bool, running: seq<string>, answer: MessageBoxResult, e: Event)
    requires e in CloseEvents(browsersSelected, running, answer)
    ensures !e.TaskRan?
  {
    var matched := Matching(ProcessNames(browsersSelected), running);
    if e in CloseRequests(matched) {
      CloseRequestsFor(matched, e);
    }
  }

  /** Without a confirmed run the click shows one message, and nothing is closed,
      measured or run. */
  lemma NothingRunsUnconfirmed(boxes: CheckBoxes, confirmAnswer: MessageBoxResult, closeAnswer: MessageBoxResult,
                               running: seq<string>, freeBefore: int, freeAfter: int, fault: Option<nat>)
    requires !Confirmed(boxes, confirmAnswer)
    ensures var ev := ClickEvents(boxes, confirmAnswer, closeAnswer, running, freeBefore, freeAfter, fault);
      |ev| == 1 && ev[0].DialogShown?
      && (Selected(boxes) == [] ==> ev[0].title == NoSelectionTitle)
      && (Selected(boxes) != [] ==> ev[0].title == ConfirmTitle)
  {
  }

  /** A task starts only in a confirmed run, only when its box is checked, and with its
      label on the progress panel. */
  lemma ClickRunsOnlyCheckedTasks(boxes: CheckBoxes, confirmAnswer: MessageBoxResult, closeAnswer: MessageBoxResult,
                                  running: seq<string>, freeBefore: int, freeAfter: int, fault: Option<nat>, e: Event)
    requires e in ClickEvents(boxes, confirmAnswer, closeAnswer, running, freeBefore, freeAfter, fault)
    requires e.TaskRan?
    ensures Confirmed(boxes, confirmAnswer)
    ensures Checked(boxes, e.task) && e.progressText == Label(e.task)
  {
    if Confirmed(boxes, confirmAnswer) {
      var sel := Selected(boxes);
      var closing := CloseEvents(Checked(boxes, BrowserDataTask), running, closeAnswer);
      var outcome := OutcomeEvents(boxes, freeBefore, freeAfter, fault);
      if e in closing {
        CloseEventsStartNoTask(Checked(boxes, BrowserDataTask), running, closeAnswer, e);
      }
      assert e in outcome;
      SelectedIsCheckedInRunOrder(boxes);
      if Faults(boxes, fault) {
        var k := fault.value;
        if e in RunEvents(sel[..k], |sel|) {
          RunEventsStartDoneTasks(sel[..k], |sel|, e);
        }
      } else {
        RunEventsStartDoneTasks(sel, |sel|, e);
      }
    }
  }

  /** A confirmed run without a fault starts every checked task and no other, reports
      all of them, and ends with the completion message. */
  lemma UnfaultedClickRunsEveryCheckedTask(boxes: CheckBoxes, confirmAnswer: MessageBoxResult,
                                           closeAnswer: MessageBoxResult, running: seq<string>,
                                           freeBefore: int, freeAfter: int, fault: Option<nat>, t: TaskId)
    requires Confirmed(boxes, confirmAnswer) && !Faults(boxes, fault)
    ensures var ev := ClickEvents(boxes, confirmAnswer, closeAnswer, running, freeBefore, freeAfter, fault);
      && (TaskRan(t, Label(t)) in ev <==> Checked(boxes, t))
      && |ev| >= 2 && ev[|ev| - 1] == DialogShown(CompleteTitle, OK, Information)
      && ev[|ev| - 2].CompletionReport? && |ev[|ev| - 2].tasks| == |Selected(boxes)|
  {
    var ev := ClickEvents(boxes, confirmAnswer, closeAnswer, running, freeBefore, freeAfter, fault);
    var sel := Selected(boxes);
    var runs := RunEvents(sel, |sel|);
    var closing := CloseEvents(Checked(boxes, BrowserDataTask), running, closeAnswer);
    RunsExactlyTheCheckedTasks(boxes, t);
    ReportNamesIndex(sel);
    if TaskRan(t, Label(t)) in ev {
      ClickRunsOnlyCheckedTasks(boxes, confirmAnswer, closeAnswer, running, freeBefore, freeAfter, fault,
                                TaskRan(t, Label(t)));
    }
    if Checked(boxes, t) {
      var k :| 0 <= k < |runs| && runs[k] == TaskRan(t, Label(t));
      assert TaskRan(t, Label(t)) in runs;
    }
  }

  // ---------------------------------------------------------------------------
  // The window

  class Window {
    var settings: CleanerSettings
    var isChecked: CheckBoxes
    var totalTasks: int
    var completedTasks: int
    var progressVisible: bool
    var progressText: string
    // the bar shows barCompleted / totalTasks of its range
    var barCompleted: int
    var cleanEnabled: bool
    var trace: seq<Event>

    /** The window opens on the loaded settings, shown in the check boxes. */
    constructor (loaded: CleanerSettings)
      ensures settings == loaded
      ensures forall t :: t in isChecked && isChecked[t] == Some(Setting(loaded, t))
      ensures totalTasks == 0 && completedTasks == 0
      ensures !progressVisible && progressText == IdleProgressText && barCompleted == 0
      ensures cleanEnabled && trace == []
    {
      settings := loaded;
      isChecked := map[];
      totalTasks, completedTasks := 0, 0;
      progressVisible, progressText, barCompleted := false, IdleProgressText, 0;
      cleanEnabled := true;
      trace := [];
      new;
      ApplySettingsToUi();
    }

    /** Each check box shows the field of its task. */
    method ApplySettingsToUi()
      modifies this`isChecked
      ensures isChecked == Applied(settings)
      ensures forall t :: t in isChecked && isChecked[t] == Some(Setting(settings, t))
    {
      isChecked := Applied(settings);
      forall t
        ensures t in isChecked && isChecked[t] == Some(Setting(settings, t))
      {
        AppliedShowsSetting(settings, t);
      }
    }

    /** Each field takes the state of its task's box (an indeterminate box counts as
        unchecked), and the record is saved. */
    method PersistSettings()
      modifies this`settings, this`trace
      ensures forall t :: Setting(settings, t) == Checked(isChecked, t)
      ensures trace == old(trace) + [SettingsSaved(settings)]
    {
      settings := Persisted(isChecked);
      forall t
        ensures Setting(settings, t) == Checked(isChecked, t)
      {
        SettingOfPersisted(isChecked, t);
      }
      trace := trace + [SettingsSaved(settings)];
    }

    /** Closing the window persists the settings. */
    method OnClosed()
      modifies this`settings, this`trace
      ensures forall t :: Setting(settings, t) == Checked(isChecked, t)
      ensures trace == old(trace) + [SettingsSaved(settings)]
    {
      PersistSettings();
    }

    /** The number of checked boxes, counted in run order. */
    method CountSelectedTasks() returns (count: int)
      ensures count == |Selected(isChecked)|
      ensures 0 <= count <= |RunOrder|
    {
      count := 0;
      for i := 0 to |RunOrder|
        invariant count == |SelectedIn(RunOrder[..i], isChecked)|
      {
        assert RunOrder[..i + 1][..i] == RunOrder[..i];
        if Checked(isChecked, RunOrder[i]) {
          count := count + 1;
        }
      }
      assert RunOrder[..|RunOrder|] == RunOrder;
      SelectedIsCheckedInRunOrder(isChecked);
    }

    /** Whether at least one box is checked. */
    method HasAnySelections() returns (r: bool)
      ensures r <==> Selected(isChecked) != []
      ensures r <==> exists t :: Checked(isChecked, t)
    {
      var count := CountSelectedTasks();
      r := count > 0;
      NothingSelectedIffNoneChecked(isChecked);
    }

    /** Shows a dialog and records it; `click` is the user's answer. */
    method ShowDialog(message: string, title: string, buttons: MessageBoxButton, icon: MessageBoxImage,
                      click: Option<Button>) returns (r: MessageBoxResult)
      requires click.Some? ==> ShowsButton(buttons, click.value)
      modifies this`trace
      ensures r == Answer(buttons, click)
      ensures trace == old(trace) + [DialogShown(title, buttons, icon)]
    {
      r := Show(message, title, buttons, icon, click);
      trace := trace + [DialogShown(title, buttons, icon)];
    }

    method UpdateProgress(taskName: string)
      modifies this`progressText
      ensures progressText == taskName
    {
      progressText := taskName;
    }

    method UpdateProgressBar()
      modifies this`barCompleted, this`trace
      ensures barCompleted == completedTasks
      ensures trace == old(trace) + [ProgressBarSet(completedTasks, totalTasks)]
    {
      barCompleted := completedTasks;
      trace := trace + [ProgressBarSet(completedTasks, totalTasks)];
    }

    method ShowProgress(show: bool)
      modifies this`progressVisible, this`barCompleted, this`progressText
      ensures progressVisible == show
      ensures !show ==> barCompleted == 0 && progressText == IdleProgressText
      ensures show ==> barCompleted == old(barCompleted) && progressText == old(progressText)
    {
      progressVisible := show;
      if !show {
        barCompleted := 0;
        progressText := IdleProgressText;
      }
    }

    method DisableActionButtons(isDisabled: bool)
      modifies this`cleanEnabled
      ensures cleanEnabled == !isDisabled
    {
      cleanEnabled := !isDisabled;
    }

    /** Shows the task's label, awaits the task and counts it. When the awaited task
        faults (`faults`), the exception leaves before the count goes up. */
    method RunTaskWithProgress(taskName: string, task: TaskId, faults: bool)
      modifies this`progressText, this`completedTasks, this`barCompleted, this`trace
      ensures progressText == taskName
      ensures !faults ==> completedTasks == old(completedTasks) + 1 && barCompleted == completedTasks
      ensures !faults ==> trace == old(trace) + [TaskRan(task, taskName), ProgressBarSet(completedTasks, totalTasks)]
      ensures faults ==> completedTasks == old(completedTasks) && barCompleted == old(barCompleted)
      ensures faults ==> trace == old(trace) + [TaskRan(task, taskName)]
    {
      UpdateProgress(taskName);
      trace := trace + [TaskRan(task, progressText)];
      if faults {
        return;
      }
      completedTasks := completedTasks + 1;
      UpdateProgressBar();
    }

    /** Lists the running processes that hold one of the names, asks whether to close
        them and, on Yes, asks each to close. `running` holds the names of the running
        processes; `click` is the answer to the question. */
    method EnsureProcessesClosed(browsersSelected: bool, running: seq<string>, click: Option<Button>)
      requires click.Some? ==> ShowsButton(YesNo, click.value)
      modifies this`trace
      ensures trace == old(trace) + CloseEvents(browsersSelected, running, Answer(YesNo, click))
    {
      var names := ProcessNames(browsersSelected);
      if |names| == 0 {
        MatchingMembers(names, running, "");
        return;
      }
      var matched: seq<string> := [];
      for i := 0 to |running|
        invariant matched == Matching(names, running[..i])
        invariant trace == old(trace)
      {
        MatchingStep(names, running, i);
        if ContainsIgnoreCase(names, running[i]) {
          matched := matched + [running[i]];
        }
      }
      WholeSequence(running);
      if |matched| == 0 {
        return;
      }
      var close := ShowDialog(CloseAppsMessage, CloseAppsTitle, YesNo, Question, click);
      if close != YesResult {
        return;
      }
      ghost var before := trace;
      for i := 0 to |matched|
        invariant trace == before + CloseRequests(matched[..i])
      {
        CloseRequestsStep(matched, i);
        AppendIsAssociative(before, CloseRequests(matched[..i]), [CloseRequested(matched[i])]);
        trace := trace + [CloseRequested(matched[i])];
      }
      WholeSequence(matched);
      AppendIsAssociative(old(trace), [DialogShown(CloseAppsTitle, YesNo, Question)], CloseRequests(matched));
    }

    /** One of the 42 `if` blocks of `CleanButton_Click`: when the task's box is
        checked, the task runs through `RunTaskWithProgress` and its report name is
        added to the finished tasks. `done` holds the tasks finished before; when this
        task is the one at index `fault` of the selection, it faults. */
    method RunIfChecked(t: TaskId, tasks: seq<string>, fault: Option<nat>, ghost done: seq<TaskId>, ghost base: seq<Event>)
        returns (tasks': seq<string>, faulted: bool)
      requires completedTasks == |done| && tasks == ReportNames(done)
      requires trace == base + RunEvents(done, totalTasks)
      modifies this`progressText, this`completedTasks, this`barCompleted, this`trace
      ensures faulted <==> Checked(isChecked, t) && fault == Some(|done|)
      ensures faulted ==> completedTasks == |done|
      ensures faulted ==> trace == base + RunEvents(done, totalTasks) + [TaskRan(t, Label(t))]
      ensures !faulted && Checked(isChecked, t) ==>
        completedTasks == |done| + 1 && tasks' == ReportNames(done + [t]) && trace == base + RunEvents(done + [t], totalTasks)
      ensures !Checked(isChecked, t) ==>
        tasks' == tasks && completedTasks == old(completedTasks) && trace == old(trace)
    {
      tasks', faulted := tasks, false;
      if Checked(isChecked, t) {
        var threw := fault == Some(completedTasks);
        RunTaskWithProgress(Label(t), t, threw);
        if threw {
          faulted := true;
          return;
        }
        RunEventsSnoc(done, t, totalTasks);
        AppendIsAssociative(base, RunEvents(done, totalTasks), [TaskRan(t, Label(t)), ProgressBarSet(|done| + 1, totalTasks)]);
        ReportNamesSnoc(done, t);
        tasks' := tasks + [ReportName(t)];
      }
    }

    /** The 42 `if` blocks of `CleanButton_Click` in their order: each checked task of
        `order` runs and is reported. When the selected task at index `k` faults
        (`fault == Some(k)`), the run stops there. */
    method RunSelectedTasks(order: seq<TaskId>, fault: Option<nat>) returns (tasks: seq<string>, failed: bool)
      requires completedTasks == 0
      modifies this`progressText, this`completedTasks, this`barCompleted, this`trace
      ensures failed <==> fault.Some? && fault.value < |SelectedIn(order, isChecked)|
      ensures !failed ==> completedTasks == |SelectedIn(order, isChecked)|
      ensures !failed ==> tasks == ReportNames(SelectedIn(order, isChecked))
      ensures !failed ==> trace == old(trace) + RunEvents(SelectedIn(order, isChecked), totalTasks)
      ensures failed ==> fault.Some? && completedTasks == fault.value
      ensures failed ==>
        var sel := SelectedIn(order, isChecked);
        trace == old(trace) + RunEvents(sel[..fault.value], totalTasks) + [TaskRan(sel[fault.value], Label(sel[fault.value]))]
    {
      tasks, failed := [], false;
      ghost var done: seq<TaskId> := [];
      ghost var base := trace;
      var i := 0;
      while i < |order|
        invariant i <= |order| && done == SelectedIn(order[..i], isChecked)
        invariant completedTasks == |done| && tasks == ReportNames(done)
        invariant trace == base + RunEvents(done, totalTasks)
        invariant fault.Some? ==> fault.value >= |done|
      {
        SelectionStep(order, isChecked, i);
        var faulted;
        tasks, faulted := RunIfChecked(order[i], tasks, fault, done, base);
        if faulted {
          failed := true;
          return;
        }
        if Checked(isChecked, order[i]) {
          done := done + [order[i]];
        }
        i := i + 1;
      }
      WholeSequence(order);
    }

    /** The body of the `try` block of `CleanButton_Click` after the first free-space
        reading: the counters are set, the checked tasks run, and either the report is
        shown, or the error message when a task faults. */
    method RunAndReport(freeBefore: int, freeAfter: int, fault: Option<nat>)
      modifies this`trace, this`totalTasks, this`completedTasks, this`progressText, this`barCompleted
      ensures trace == old(trace) + OutcomeEvents(isChecked, freeBefore, freeAfter, fault)
      ensures totalTasks == |Selected(isChecked)|
      ensures completedTasks == CompletedCount(isChecked, fault)
    {
      totalTasks := CountSelectedTasks();
      completedTasks := 0;
      var tasks, failed := RunSelectedTasks(RunOrder, fault);
      ghost var sel := Selected(isChecked);
      if !failed {
        var reclaimed := Reclaimed(freeBefore, freeAfter);
        var value, unit := FormatBytes(reclaimed);
        var report := [FreeSpaceRead, CompletionReport(tasks, reclaimed, value, Units[unit]),
                       DialogShown(CompleteTitle, OK, Information)];
        AppendIsAssociative(old(trace), RunEvents(sel, |sel|), report);
        trace := trace + report;
      } else {
        ghost var k := fault.value;
        ghost var ran := RunEvents(sel[..k], |sel|);
        AppendIsAssociative(old(trace), ran, [TaskRan(sel[k], Label(sel[k]))]);
        AppendIsAssociative(old(trace), ran + [TaskRan(sel[k], Label(sel[k]))], [DialogShown(ErrorTitle, OK, Error)]);
        var _ := ShowDialog(ErrorMessage, ErrorTitle, OK, Error, None);
      }
    }

    /** The `try` block of `CleanButton_Click`: running browsers are dealt with, the free
        space is read, and the checked tasks run and the outcome is reported. */
    method CloseAndRun(closeClick: Option<Button>, running: seq<string>, freeBefore: int, freeAfter: int,
                       fault: Option<nat>)
      requires closeClick.Some? ==> ShowsButton(YesNo, closeClick.value)
      modifies this`trace, this`totalTasks, this`completedTasks, this`progressText, this`barCompleted
      ensures trace == old(trace) + CleanupEvents(isChecked, Answer(YesNo, closeClick), running, freeBefore, freeAfter, fault)
      ensures totalTasks == |Selected(isChecked)|
      ensures completedTasks == CompletedCount(isChecked, fault)
    {
      ghost var answer := Answer(YesNo, closeClick);
      ghost var closeEvents := CloseEvents(Checked(isChecked, BrowserDataTask), running, answer);
      EnsureProcessesClosed(Checked(isChecked, BrowserDataTask), running, closeClick);
      trace := trace + [FreeSpaceRead];
      RunAndReport(freeBefore, freeAfter, fault);
      AppendIsAssociative(old(trace), closeEvents, [FreeSpaceRead]);
      AppendIsAssociative(old(trace), closeEvents + [FreeSpaceRead], OutcomeEvents(isChecked, freeBefore, freeAfter, fault));
    }

    /** The `try`/`finally` part of `CleanButton_Click`, entered once the user has
        confirmed: the Clean button is disabled and the progress panel shown, the `try`
        block runs and, however it ends, the panel is hidden and reset and the button
        enabled again. */
    method RunCleanup(closeClick: Option<Button>, running: seq<string>, freeBefore: int, freeAfter: int,
                      fault: Option<nat>)
      requires closeClick.Some? ==> ShowsButton(YesNo, closeClick.value)
      modifies this`trace, this`totalTasks, this`completedTasks, this`progressVisible, this`progressText,
               this`barCompleted, this`cleanEnabled
      ensures trace == old(trace) + CleanupEvents(isChecked, Answer(YesNo, closeClick), running, freeBefore, freeAfter, fault)
      ensures totalTasks == |Selected(isChecked)|
      ensures completedTasks == CompletedCount(isChecked, fault)
      ensures !progressVisible && barCompleted == 0 && progressText == IdleProgressText && cleanEnabled
    {
      DisableActionButtons(true);
      ShowProgress(true);
      CloseAndRun(closeClick, running, freeBefore, freeAfter, fault);
      ShowProgress(false);
      DisableActionButtons(false);
    }

    /** `CleanButton_Click`. The parameters stand for what the window learns from
        outside: the answer to the confirmation (`confirmClick`) and to the question
        about running browsers (`closeClick`), the names of the running processes, the
        free space of the system drive before and after the run, and which selected
        task, if any, faults. */
    method CleanButtonClick(confirmClick: Option<Button>, closeClick: Option<Button>, running: seq<string>,
                            freeBefore: int, freeAfter: int, fault: Option<nat>)
      requires confirmClick.Some? ==> ShowsButton(YesNo, confirmClick.value)
      requires closeClick.Some? ==> ShowsButton(YesNo, closeClick.value)
      modifies this`settings, this`trace, this`totalTasks, this`completedTasks, this`progressVisible,
               this`progressText, this`barCompleted, this`cleanEnabled
      ensures forall t :: Setting(settings, t) == Checked(isChecked, t)
      ensures trace == old(trace) + [SettingsSaved(settings)]
                       + ClickEvents(isChecked, Answer(YesNo, confirmClick), Answer(YesNo, closeClick), running,
                                     freeBefore, freeAfter, fault)
      // without a confirmed run, the counters and the controls stay as they were
      ensures !Confirmed(isChecked, Answer(YesNo, confirmClick)) ==>
                totalTasks == old(totalTasks) && completedTasks == old(completedTasks)
                && progressVisible == old(progressVisible) && progressText == old(progressText)
                && barCompleted == old(barCompleted) && cleanEnabled == old(cleanEnabled)
      // after a confirmed run, however it ended, the panel is hidden and reset and the
      // Clean button enabled
      ensures Confirmed(isChecked, Answer(YesNo, confirmClick)) ==>
                totalTasks == |Selected(isChecked)| && completedTasks == CompletedCount(isChecked, fault)
                && !progressVisible && barCompleted == 0 && progressText == IdleProgressText && cleanEnabled
    {
      PersistSettings();
      var hasSelection := HasAnySelections();
      if !hasSelection {
        var _ := ShowDialog(NoSelectionMessage, NoSelectionTitle, OK, Information, None);
        return;
      }
      var confirmation := ShowDialog(ConfirmMessage, ConfirmTitle, YesNo, Warning, confirmClick);
      if confirmation != YesResult {
        return;
      }
      RunCleanup(closeClick, running, freeBefore, freeAfter, fault);
      AppendIsAssociative(old(trace) + [SettingsSaved(settings)], [DialogShown(ConfirmTitle, YesNo, Warning)],
                          CleanupEvents(isChecked, Answer(YesNo, closeClick), running, freeBefore, freeAfter, fault));
      AppendIsAssociative(old(trace), [SettingsSaved(settings)],
                          [DialogShown(ConfirmTitle, YesNo, Warning)]
                          + CleanupEvents(isChecked, Answer(YesNo, closeClick), running, freeBefore, freeAfter, fault));
    }
  }
}

/**
 * The bridge between the timeline and the host: the filter the quick entry enables, and
 * the text transforms behind appending a new task to a note. Reading, writing and
 * creating notes, and the confirmation dialog, are the host's: their results are
 * parameters here.
 */
module Bridge {
  import opened Wrappers
  import opened Seqs
  import opened Strings
  import opened Tasks

  // ---------------------------------------------------------------------------------------
  // The filter
  // ---------------------------------------------------------------------------------------

  /** A date bound of the filter is set: present and not empty. */
  predicate BoundSet(b: Option<string>) {
    b.Some? && b.value != ""
  }

  /**
   * The tasks the filter keeps from the full list: the date range applies only when both
   * bounds are set (`filterDateRange` is not part of this model, so it is the parameter
   * `inRange`), and the priority list only when it is not empty.
   */
  predicate Kept(t: Task, start: Option<string>, end: Option<string>, priorities: seq<string>,
                 inRange: (Task, string, string) -> bool)
  {
    && (BoundSet(start) && BoundSet(end) ==> inRange(t, start.value, end.value))
    && (priorities != [] ==> t.priority in priorities)
  }

  /** The filtered list of `handleFilterEnable`, computed from the full list. */
  function FilterView(all: seq<Task>, start: Option<string>, end: Option<string>, priorities: seq<string>,
                      inRange: (Task, string, string) -> bool): (r: seq<Task>)
    ensures r == Filter(all, (t: Task) => Kept(t, start, end, priorities, inRange))
    ensures |r| <= |all|
  {
    var byDate :=
      if BoundSet(start) && BoundSet(end) then Filter(all, (t: Task) => inRange(t, start.value, end.value)) else all;
    var byPriority := if |priorities| != 0 then Filter(byDate, (t: Task) => t.priority in priorities) else byDate;
    FilterViewSteps(all, start, end, priorities, inRange);
    byPriority
  }

  /** The two optional filter steps together are one filter by `Kept`. */
  lemma FilterViewSteps(all: seq<Task>, start: Option<string>, end: Option<string>, priorities: seq<string>,
                        inRange: (Task, string, string) -> bool)
    ensures var byDate :=
        if BoundSet(start) && BoundSet(end) then Filter(all, (t: Task) => inRange(t, start.value, end.value)) else all;
      (if |priorities| != 0 then Filter(byDate, (t: Task) => t.priority in priorities) else byDate)
      == Filter(all, (t: Task) => Kept(t, start, end, priorities, inRange))
  {
    var kept := (t: Task) => Kept(t, start, end, priorities, inRange);
    var prio := (t: Task) => t.priority in priorities;
    if BoundSet(start) && BoundSet(end) {
      var date := (t: Task) => inRange(t, start.value, end.value);
      if |priorities| != 0 {
        FilterFilter(all, date, prio, kept);
      } else {
        FilterExt(all, date, kept);
      }
    } else {
      if |priorities| != 0 {
        FilterExt(all, prio, kept);
      } else {
        FilterAll(all, kept);
      }
    }
  }

  /** Filtering the filtered list again by the same filter changes nothing. */
  lemma FilterViewIdempotent(all: seq<Task>, start: Option<string>, end: Option<string>, priorities: seq<string>,
                             inRange: (Task, string, string) -> bool)
    ensures FilterView(FilterView(all, start, end, priorities, inRange), start, end, priorities, inRange)
      == FilterView(all, start, end, priorities, inRange)
  {
    FilterIdempotent(all, (t: Task) => Kept(t, start, end, priorities, inRange));
  }

  // ---------------------------------------------------------------------------------------
  // Appending a task
  // ---------------------------------------------------------------------------------------

  /** The line of a new open task. */
  function TaskLine(text: string): (line: string)
    ensures StartsWith(line, "- [ ] ") && line[6..] == text
  {
    "- [ ] " + text
  }

  /** The content of a note created for a new task: the section line, then the task line. */
  function NewFileContent(section: string, taskStr: string): (content: string)
    ensures '\n' !in section && '\n' !in taskStr ==> Split(content, '\n') == [section, taskStr]
  {
    var content := section + "\n" + taskStr;
    SplitAround(section, taskStr, '\n');
    if '\n' in section || '\n' in taskStr then content
    else
      SplitNoSep(section, '\n');
      SplitNoSep(taskStr, '\n');
      content
  }

  /**
   * `lines.splice(lines.indexOf(section) + 1, 0, taskStr)`: the task line goes right after
   * the first line equal to the section, or first when there is none.
   */
  method InsertTaskLine(lines: seq<string>, section: string, taskStr: string) returns (r: seq<string>)
    ensures |r| == |lines| + 1
    ensures section in lines ==> var i := Seqs.IndexOf(lines, section);
      r[i] == section && r[i + 1] == taskStr && r == lines[..i + 1] + [taskStr] + lines[i + 1..]
    ensures section !in lines ==> r == [taskStr] + lines
    ensures var i := Seqs.IndexOf(lines, section) + 1; r[..i] + r[i + 1..] == lines
  {
    var at := Seqs.IndexOf(lines, section) + 1;
    r := lines[..at] + [taskStr] + lines[at..];
    assert r[..at] == lines[..at] && r[at + 1..] == lines[at..];
  }

  /** The text the bridge writes back: the note's lines with the task line inserted, joined again. */
  method AppendToContent(content: string, section: string, taskStr: string) returns (written: string)
    ensures '\n' !in taskStr ==>
      var lines := Split(content, '\n');
      var out := Split(written, '\n');
      && |out| == |lines| + 1
      && out[Seqs.IndexOf(lines, section) + 1] == taskStr
      && out[..Seqs.IndexOf(lines, section) + 1] + out[Seqs.IndexOf(lines, section) + 2..] == lines
  {
    var lines := Split(content, '\n');
    var inserted := InsertTaskLine(lines, section, taskStr);
    written := Join(inserted, '\n');
    if '\n' !in taskStr {
      forall k | 0 <= k < |inserted| ensures '\n' !in inserted[k] {
        var at := Seqs.IndexOf(lines, section) + 1;
        if k != at {
          assert inserted[k] in lines;
        }
      }
      SplitJoin(inserted, '\n');
    }
  }

  /** What appending a task does to the vault. */
  datatype Effect =
    | CreateFile(path: string, content: string)
    | WriteFile(path: string, content: string)
    | ReadFailed(path: string)

  /** The bridge's state: the full task list of the model, the list shown, and the section for new tasks. */
  class ObsidianBridge {
    var modelTaskList: seq<Task>
    var taskList: seq<Task>
    var sectionForNewTasks: string

    constructor(modelTaskList: seq<Task>, sectionForNewTasks: string)
      ensures this.modelTaskList == modelTaskList && taskList == modelTaskList
      ensures this.sectionForNewTasks == sectionForNewTasks
    {
      this.modelTaskList := modelTaskList;
      taskList := modelTaskList;
      this.sectionForNewTasks := sectionForNewTasks;
    }

    /** The model's task list changed: the view shows it whole again. */
    method OnUpdateTasks(newList: seq<Task>)
      modifies this
      ensures modelTaskList == newList && taskList == newList
      ensures sectionForNewTasks == old(sectionForNewTasks)
    {
      modelTaskList := newList;
      taskList := modelTaskList;
    }

    /**
     * `handleFilterEnable`: the shown list becomes the filtered full list, whatever was
     * shown before, so enabling the same filter twice is enabling it once.
     */
    method HandleFilterEnable(start: Option<string>, end: Option<string>, priorities: seq<string>,
                              inRange: (Task, string, string) -> bool)
      modifies this
      ensures taskList == FilterView(modelTaskList, start, end, priorities, inRange)
      ensures modelTaskList == old(modelTaskList) && sectionForNewTasks == old(sectionForNewTasks)
    {
      var list := modelTaskList;
      if BoundSet(start) && BoundSet(end) {
        list := Filter(list, (t: Task) => inRange(t, start.value, end.value));
      }
      if |priorities| != 0 {
        list := Filter(list, (t: Task) => t.priority in priorities);
      }
      FilterViewSteps(modelTaskList, start, end, priorities, inRange);
      taskList := list;
    }

    /**
     * `handleCreateNewTask`: a missing note the user agrees to create is created with the
     * section line and the task line; otherwise the note is read (`read` is `None` when
     * reading fails) and written back with the task line inserted. When the host reports
     * that the create or the write succeeded (`succeeded`), `onUpdateTasks` shows the
     * model's whole list again, dropping any filter; a failure only raises a notice.
     */
    method HandleCreateNewTask(path: string, append: string, exist: bool, confirmed: bool, read: Option<string>,
                               succeeded: bool)
      returns (effect: Effect)
      modifies this
      ensures modelTaskList == old(modelTaskList) && sectionForNewTasks == old(sectionForNewTasks)
      ensures (effect.CreateFile? || effect.WriteFile?) && succeeded ==> taskList == modelTaskList
      ensures !((effect.CreateFile? || effect.WriteFile?) && succeeded) ==> taskList == old(taskList)
      ensures !exist && confirmed ==> effect == CreateFile(path, NewFileContent(sectionForNewTasks, TaskLine(append)))
      ensures (exist || !confirmed) && read.None? ==> effect == ReadFailed(path)
      ensures (exist || !confirmed) && read.Some? ==> effect.WriteFile? && effect.path == path
      ensures (exist || !confirmed) && read.Some? && '\n' !in append ==>
        var lines := Split(read.value, '\n');
        var out := Split(effect.content, '\n');
        && |out| == |lines| + 1
        && out[Seqs.IndexOf(lines, sectionForNewTasks) + 1] == TaskLine(append)
        && out[..Seqs.IndexOf(lines, sectionForNewTasks) + 1] + out[Seqs.IndexOf(lines, sectionForNewTasks) + 2..] == lines
    {
      var taskStr := TaskLine(append);
      var section := sectionForNewTasks;
      if !exist && confirmed {
        effect := CreateFile(path, NewFileContent(section, taskStr));
        if succeeded {
          taskList := modelTaskList;
        }
        return;
      }
      if read.None? {
        return ReadFailed(path);
      }
      assert '\n' !in append ==> '\n' !in taskStr by {
        if '\n' in taskStr {
          var k :| 0 <= k < |taskStr| && taskStr[k] == '\n';
          assert k >= 6 ==> taskStr[k] == append[k - 6];
        }
      }
      var written := AppendToContent(read.value, section, taskStr);
      effect := WriteFile(path, written);
      if succeeded {
        taskList := modelTaskList;
      }
    }
  }
}

/**
 * The task record shared by the adapter and the views, the host's position and cache
 * records it is built from, the plugin options the views read, and the one loop both
 * the timeline and the year view run over a task list: gathering every date a task
 * carries.
 */
module Tasks {
  import opened Wrappers
  import opened Seqs
  import opened Dates

  /** A place in a note (0-based line and column, character offset). */
  datatype Loc = Loc(line: nat, col: nat, offset: nat)

  /** A span in a note. */
  datatype Pos = Pos(start: Loc, end: Loc)

  /** A link to a note or to a section of it; `subpath` is the heading part, when any. */
  datatype Link = Link(path: string, subpath: Option<string>)

  /**
   * A front-matter value: a string, a list of values, a nested mapping, or a scalar that
   * is neither (a number, a boolean, null). For JavaScript's `typeof`, a list and a
   * mapping are both "object".
   */
  datatype FrontMatterValue = FmString(s: string) | FmList(items: seq<FrontMatterValue>) | FmMap | FmScalar

  type FrontMatter = map<string, FrontMatterValue>

  /**
   * A task as the timeline sees it. `status` and `statusMarker` are the character inside
   * the checkbox as the adapter creates it; the status classifier (not part of this model)
   * later overwrites `status` with a status name. `dates` stands for the values of the
   * record's `dates` map in iteration order; its keys are not used by this core.
   */
  datatype Task = Task(
    symbol: string,
    link: Link,
    section: Link,
    header: Link,
    text: string,
    visual: string,
    tags: seq<string>,
    line: nat,
    lineCount: int,
    list: nat,
    outlinks: seq<Link>,
    path: string,
    position: Pos,
    status: string,
    statusMarker: string,
    checked: bool,
    completed: bool,
    fullyCompleted: bool,
    dailyNote: bool,
    order: int,
    priority: string,
    recurrence: string,
    frontMatter: FrontMatter,
    isTasksTask: bool,
    annotated: bool,
    isReal: bool,
    created: Option<Date>,
    due: Option<Date>,
    scheduled: Option<Date>,
    start: Option<Date>,
    completion: Option<Date>,
    dates: seq<Date>)

  /** The status names the counters and filters compare against (the plugin's status enum). */
  datatype StatusNames = StatusNames(overdue: string, unplanned: string, done: string, cancelled: string)

  predicate NamesDistinct(n: StatusNames) {
    && n.overdue != n.unplanned && n.overdue != n.done && n.overdue != n.cancelled
    && n.unplanned != n.done && n.unplanned != n.cancelled && n.done != n.cancelled
  }

  /** The plugin options the core reads. An absent `inbox` is modelled as `""`. */
  datatype UserOptions = UserOptions(
    useCounters: bool,
    useQuickEntry: bool,
    useYearHeader: bool,
    useFileBadge: bool,
    usePriority: bool,
    useRecurrence: bool,
    useRelative: bool,
    useSection: bool,
    useTags: bool,
    taskFiles: seq<string>,
    inbox: string,
    dailyNoteFormat: string,
    dailyNoteFolder: string,
    entryPosition: string,
    counterBehavior: string,
    defaultFilters: string,
    defaultTodayFocus: bool,
    hideTags: seq<string>,
    tagColorPalette: map<string, string>,
    forward: bool,
    sectionForNewTasks: string)

  function OptionalDate(d: Option<Date>): seq<Date> {
    if d.Some? then [d.value] else []
  }

  /** `tasks.map(t => t.status)`. */
  function StatusOfEach(tasks: seq<Task>): seq<string> {
    Map(tasks, (t: Task) => t.status)
  }

  /**
   * The distinct statuses of `tasks` in order of first occurrence: `[...new Set(tasks.map(t => t.status))]`.
   * A status comes before another exactly when its first task comes before the other's.
   */
  function Statuses(tasks: seq<Task>): (r: seq<string>)
    ensures Distinct(r)
    ensures forall x :: x in r <==> exists t :: t in tasks && t.status == x
    ensures forall i, j :: 0 <= i < j < |r| ==> IndexOf(StatusOfEach(tasks), r[i]) < IndexOf(StatusOfEach(tasks), r[j])
  {
    var all := StatusOfEach(tasks);
    DedupOrder(all);
    assert forall x :: x in all <==> exists t :: t in tasks && t.status == x by {
      forall x ensures x in all <==> exists t :: t in tasks && t.status == x {
        if x in all {
          var k :| 0 <= k < |all| && all[k] == x;
          assert tasks[k] in tasks;
        }
        if exists t :: t in tasks && t.status == x {
          var t :| t in tasks && t.status == x;
          var k :| 0 <= k < |tasks| && tasks[k] == t;
          assert all[k] == x;
        }
      }
    }
    Dedup(all)
  }

  /** The dates a task contributes, in the order the views add them: due, scheduled, created, start, completion, then `dates`. */
  function TaskDates(t: Task): seq<Date> {
    OptionalDate(t.due) + OptionalDate(t.scheduled) + OptionalDate(t.created)
    + OptionalDate(t.start) + OptionalDate(t.completion) + t.dates
  }

  /** `d` is one of the five named dates or one of the `dates` values of some task of `tasks`. */
  predicate InvolvedIn(tasks: seq<Task>, d: Date) {
    exists i :: 0 <= i < |tasks| && d in TaskDates(tasks[i])
  }

  lemma TaskDatesMembers(t: Task, d: Date)
    ensures d in TaskDates(t) <==>
      t.due == Some(d) || t.scheduled == Some(d) || t.created == Some(d)
      || t.start == Some(d) || t.completion == Some(d) || d in t.dates
  {
  }

  /**
   * The `forEach` loop of the timeline and the year view: every date of every task is
   * added to an insertion-ordered set.
   */
  method CollectTaskDates(tasks: seq<Task>) returns (days: seq<Date>)
    ensures Distinct(days)
    ensures forall d :: d in days <==> InvolvedIn(tasks, d)
  {
    ghost var dss := Map(tasks, TaskDates);
    days := [];
    var i := 0;
    while i < |tasks|
      invariant 0 <= i <= |tasks|
      invariant Distinct(days)
      invariant forall d :: d in days <==> d in Flatten(dss[..i])
    {
      days := AddAll(days, TaskDates(tasks[i]));
      assert dss[..i + 1][..i] == dss[..i];
      assert Flatten(dss[..i + 1]) == Flatten(dss[..i]) + TaskDates(tasks[i]);
      i := i + 1;
    }
    assert dss[..i] == dss;
    InvolvedInFlatten(tasks);
  }

  /** The dates of all the tasks, one task after another, are exactly the involved dates. */
  lemma InvolvedInFlatten(tasks: seq<Task>)
    ensures forall d :: d in Flatten(Map(tasks, TaskDates)) <==> InvolvedIn(tasks, d)
  {
    var dss := Map(tasks, TaskDates);
    forall d ensures d in Flatten(dss) <==> InvolvedIn(tasks, d) {
      FlattenMember(dss, d);
      if InvolvedIn(tasks, d) {
        var k :| 0 <= k < |tasks| && d in TaskDates(tasks[k]);
        assert d in dss[k];
      }
    }
  }

  /** Adds the dates of one task, in order, to the insertion-ordered set `days`. */
  method AddAll(days: seq<Date>, ds: seq<Date>) returns (r: seq<Date>)
    ensures Distinct(days) ==> Distinct(r)
    ensures forall d :: d in r <==> d in days || d in ds
    ensures |r| <= |days| + |ds|
  {
    r := days;
    var j := 0;
    while j < |ds|
      invariant 0 <= j <= |ds|
      invariant Distinct(days) ==> Distinct(r)
      invariant forall d :: d in r <==> d in days || d in ds[..j]
      invariant |r| <= |days| + j
    {
      assert ds[..j + 1] == ds[..j] + [ds[j]];
      r := AddIfAbsent(r, ds[j]);
      j := j + 1;
    }
    assert ds[..j] == ds;
  }
}

/**
 * The year view: the header of a year and the ordered days of that year on which some
 * task has a date, each rendered as a day view over the tasks of that day.
 */
module YearViews {
  import opened Wrappers
  import opened Seqs
  import opened Sorting
  import opened Dates
  import opened Tasks
  import opened DateViews

  /** The year header: its year, whether it is the current year, and the distinct statuses of its tasks. */
  datatype YearHeader = YearHeader(year: int, current: bool, dataTypes: seq<string>)

  /** A rendered year: the header (absent without tasks), its days in order and their views. */
  datatype YearModel = YearModel(header: Option<YearHeader>, days: seq<Date>, dates: seq<DateModel>)

  /** What the day views read besides their tasks: the entry date, today, the forward option and the overdue status. */
  datatype DayContext = DayContext(entryOnDate: Date, today: Date, forward: bool, overdue: string)

  /** The header of the year: shown only when the year has tasks. */
  function YearHeaderOf(year: int, tasks: seq<Task>, today: Date): (h: Option<YearHeader>)
    ensures h.Some? <==> tasks != []
    ensures h.Some? ==> h.value.year == year && (h.value.current <==> year == today.year)
    ensures h.Some? ==> Distinct(h.value.dataTypes)
    ensures h.Some? ==> forall x :: x in h.value.dataTypes <==> exists t :: t in tasks && t.status == x
  {
    if |tasks| > 0 then Some(YearHeader(year, year == today.year, Statuses(tasks))) else None
  }

  /**
   * The tasks of one day: `filterDate` of the task utilities is not part of this model, so
   * whether a task belongs to a day is the parameter `onDate`.
   */
  function DayTasks(tasks: seq<Task>, onDate: (Task, Date) -> bool, d: Date): (r: seq<Task>)
    ensures forall t :: t in r <==> t in tasks && onDate(t, d)
    ensures |r| <= |tasks|
  {
    Filter(tasks, (t: Task) => onDate(t, d))
  }

  /** The view of one day of the year. */
  function DayOf(tasks: seq<Task>, onDate: (Task, Date) -> bool, ctx: DayContext, d: Date): DateModel {
    DateView(d, DayTasks(tasks, onDate, d), ctx.entryOnDate, ctx.today, ctx.forward, ctx.overdue)
  }

  /**
   * `YearView.render`: the days are every date of the year's tasks and, when it falls in
   * this year, the entry date; they are shown once each, in chronological order, and each
   * is rendered over its own tasks.
   */
  method YearView(year: int, tasks: seq<Task>, onDate: (Task, Date) -> bool, ctx: DayContext) returns (m: YearModel)
    ensures m.header == YearHeaderOf(year, tasks, ctx.today)
    ensures StrictlyAscending(m.days, DateLe)
    ensures forall d :: d in m.days <==> d.year == year && (InvolvedIn(tasks, d) || d == ctx.entryOnDate)
    ensures |m.dates| == |m.days|
    ensures forall i :: 0 <= i < |m.days| ==> m.dates[i] == DayOf(tasks, onDate, ctx, m.days[i])
  {
    var days := CollectTaskDates(tasks);
    if year == ctx.entryOnDate.year && ctx.entryOnDate !in days {
      days := days + [ctx.entryOnDate];
    }
    assert Distinct(days);
    var inYear := Filter(days, (d: Date) => d.year == year);
    FilterDistinct(days, (d: Date) => d.year == year);
    DateLeTotalOrder();
    SortStrict(inYear, DateLe);
    var shown := Sort(inYear, DateLe);
    var dates := Map(shown, (d: Date) => DayOf(tasks, onDate, ctx, d));
    m := YearModel(YearHeaderOf(year, tasks, ctx.today), shown, dates);
  }
}

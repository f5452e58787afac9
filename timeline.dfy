/**
 * The timeline: the component that gathers the dates of all tasks, spans the years from
 * the earliest to the latest, counts the tasks per status, builds the style classes and
 * the quick-entry file list from the options, and renders one year view per year.
 */
module Timeline {
  import opened Wrappers
  import opened Seqs
  import opened Sorting
  import opened Strings
  import opened Dates
  import opened Tasks
  import opened DateViews
  import opened YearViews

  // ---------------------------------------------------------------------------------------
  // Dates and years
  // ---------------------------------------------------------------------------------------

  /**
   * The days of the timeline: every date of every task and today, once each, in
   * chronological order. (The source sorts "YYYY-MM-DD" strings, whose order is the
   * chronological one for four-digit years.)
   */
  method InvolvedDates(tasks: seq<Task>, today: Date) returns (sorted: seq<Date>)
    ensures sorted != [] && today in sorted
    ensures StrictlyAscending(sorted, DateLe)
    ensures forall d :: d in sorted <==> InvolvedIn(tasks, d) || d == today
  {
    var involved := CollectTaskDates(tasks);
    if today !in involved {
      involved := involved + [today];
    }
    DateLeTotalOrder();
    SortStrict(involved, DateLe);
    sorted := Sort(involved, DateLe);
  }

  /** The years from the first day's to the last day's, one each, in order. */
  function Years(sorted: seq<Date>): (years: seq<int>)
    requires sorted != []
    requires Sorted(sorted, DateLe)
    ensures years != [] && years[0] == sorted[0].year && years[|years| - 1] == sorted[|sorted| - 1].year
    ensures forall i :: 0 <= i < |years| - 1 ==> years[i + 1] == years[i] + 1
    ensures forall d :: d in sorted ==> d.year in years
  {
    var earliestYear := sorted[0].year;
    var latestYear := sorted[|sorted| - 1].year;
    DateLeYear(sorted[0], sorted[|sorted| - 1]);
    forall d | d in sorted ensures earliestYear <= d.year <= latestYear {
      var k :| 0 <= k < |sorted| && sorted[k] == d;
      if k > 0 { DateLeYear(sorted[0], d); }
      if k < |sorted| - 1 { DateLeYear(d, sorted[|sorted| - 1]); }
    }
    var years := Range(earliestYear, latestYear);
    assert forall d :: d in sorted ==> years[d.year - earliestYear] == d.year;
    years
  }

  /** The day the quick entry sits on: the first day, the last day, or today. */
  function EntryOnDate(entryPosition: string, sorted: seq<Date>, today: Date): (d: Date)
    requires sorted != []
    ensures entryPosition == "top" ==> d == sorted[0]
    ensures entryPosition == "bottom" ==> d == sorted[|sorted| - 1]
    ensures entryPosition != "top" && entryPosition != "bottom" ==> d == today
    ensures d in sorted || d == today
  {
    if entryPosition == "top" then sorted[0]
    else if entryPosition == "bottom" then sorted[|sorted| - 1]
    else today
  }

  /** On sorted days the top entry is the earliest day and the bottom entry the latest. */
  lemma EntryOnDateBounds(entryPosition: string, sorted: seq<Date>, today: Date)
    requires sorted != [] && Sorted(sorted, DateLe)
    ensures entryPosition == "top" ==> forall d :: d in sorted ==> DateLe(EntryOnDate(entryPosition, sorted, today), d)
    ensures entryPosition == "bottom" ==> forall d :: d in sorted ==> DateLe(d, EntryOnDate(entryPosition, sorted, today))
  {
    DateLeTotalOrder();
    forall d | d in sorted ensures DateLe(sorted[0], d) && DateLe(d, sorted[|sorted| - 1]) {
      var k :| 0 <= k < |sorted| && sorted[k] == d;
    }
  }

  /** A day the timeline involves: a date of some task, or today. */
  predicate Involved(tasks: seq<Task>, today: Date, d: Date) {
    InvolvedIn(tasks, d) || d == today
  }

  /**
   * Over the sorted involved days, the first and last days are involved, and so is the
   * entry date, which is the earliest involved day for `top` and the latest for `bottom`.
   */
  lemma InvolvedBounds(tasks: seq<Task>, today: Date, sorted: seq<Date>, entryPosition: string)
    requires sorted != [] && Sorted(sorted, DateLe)
    requires forall d :: d in sorted <==> Involved(tasks, today, d)
    ensures Involved(tasks, today, sorted[0]) && Involved(tasks, today, sorted[|sorted| - 1])
    ensures Involved(tasks, today, EntryOnDate(entryPosition, sorted, today))
    ensures entryPosition == "top" ==>
      forall d :: Involved(tasks, today, d) ==> DateLe(EntryOnDate(entryPosition, sorted, today), d)
    ensures entryPosition == "bottom" ==>
      forall d :: Involved(tasks, today, d) ==> DateLe(d, EntryOnDate(entryPosition, sorted, today))
  {
    assert sorted[0] in sorted && sorted[|sorted| - 1] in sorted;
    EntryOnDateBounds(entryPosition, sorted, today);
  }

  // ---------------------------------------------------------------------------------------
  // Counters
  // ---------------------------------------------------------------------------------------

  /** The numbers on the counters. */
  datatype Counters = Counters(todo: int, overdue: nat, unplanned: nat, completed: nat, cancelled: nat)

  function HasStatus(status: string): Task -> bool {
    (t: Task) => t.status == status
  }

  /** A task whose status is none of the four counted ones. */
  predicate Other(n: StatusNames, t: Task) {
    t.status != n.overdue && t.status != n.unplanned && t.status != n.done && t.status != n.cancelled
  }

  /** The counts per status; "todo" is what the other four leave of the list's length. */
  function CountTasks(tasks: seq<Task>, n: StatusNames): (c: Counters)
    ensures c.todo + c.overdue + c.unplanned + c.completed + c.cancelled == |tasks|
    ensures c.overdue == Count(tasks, HasStatus(n.overdue)) && c.unplanned == Count(tasks, HasStatus(n.unplanned))
    ensures c.completed == Count(tasks, HasStatus(n.done)) && c.cancelled == Count(tasks, HasStatus(n.cancelled))
  {
    var overdueCount := |Filter(tasks, HasStatus(n.overdue))|;
    var unplannedCount := |Filter(tasks, HasStatus(n.unplanned))|;
    var completedCount := |Filter(tasks, HasStatus(n.done))|;
    var cancelledCount := |Filter(tasks, HasStatus(n.cancelled))|;
    FilterCount(tasks, HasStatus(n.overdue));
    FilterCount(tasks, HasStatus(n.unplanned));
    FilterCount(tasks, HasStatus(n.done));
    FilterCount(tasks, HasStatus(n.cancelled));
    Counters(|tasks| - unplannedCount - completedCount - cancelledCount - overdueCount,
             overdueCount, unplannedCount, completedCount, cancelledCount)
  }

  /** `filter(p).length` counts the elements satisfying `p`. */
  lemma {:induction false} FilterCount<T(!new)>(s: seq<T>, p: T -> bool)
    ensures |Filter(s, p)| == Count(s, p)
  {
    if s != [] {
      FilterCount(s[1..], p);
    }
  }

  /**
   * With distinct status names, "todo" counts exactly the tasks of any other status, so
   * it is never negative.
   */
  lemma CountTasksTodo(tasks: seq<Task>, n: StatusNames)
    requires NamesDistinct(n)
    ensures CountTasks(tasks, n).todo == Count(tasks, (t: Task) => Other(n, t))
    ensures CountTasks(tasks, n).todo >= 0
  {
    CountPartition(tasks, n);
  }

  lemma {:induction false} CountPartition(tasks: seq<Task>, n: StatusNames)
    requires NamesDistinct(n)
    ensures Count(tasks, HasStatus(n.overdue)) + Count(tasks, HasStatus(n.unplanned)) + Count(tasks, HasStatus(n.done))
      + Count(tasks, HasStatus(n.cancelled)) + Count(tasks, (t: Task) => Other(n, t)) == |tasks|
  {
    if tasks != [] {
      CountPartition(tasks[1..], n);
    }
  }

  // ---------------------------------------------------------------------------------------
  // Class names and the quick-entry files
  // ---------------------------------------------------------------------------------------

  /** All six task-detail options are off: one "noInfo" style replaces the six separate ones. */
  predicate NoInfo(o: UserOptions) {
    !o.useFileBadge && !o.usePriority && !o.useRecurrence && !o.useRelative && !o.useSection && !o.useTags
  }

  /** The styles for the general options that are off. */
  predicate GeneralStyle(o: UserOptions, s: string) {
    (s == "noCounters" && !o.useCounters) || (s == "noQuickEntry" && !o.useQuickEntry) || (s == "noYear" && !o.useYearHeader)
  }

  /** The styles for the task-detail options that are off. */
  predicate DetailStyle(o: UserOptions, s: string) {
    || (s == "noFile" && !o.useFileBadge) || (s == "noPriority" && !o.usePriority)
    || (s == "noRepeat" && !o.useRecurrence) || (s == "noRelative" && !o.useRelative)
    || (s == "noHeader" && !o.useSection) || (s == "noTag" && !o.useTags)
  }

  /** The characters that tell the style names apart. */
  lemma StyleNamesDiffer()
    ensures "noCounters"[2] == 'C' && "noQuickEntry"[2] == 'Q' && "noYear"[2] == 'Y' && "noInfo"[2] == 'I'
    ensures "noFile"[2] == 'F' && "noPriority"[2] == 'P' && "noHeader"[2] == 'H' && "noTag"[2] == 'T'
    ensures "noRepeat"[2] == 'R' && "noRelative"[2] == 'R' && "noRepeat"[4] == 'p' && "noRelative"[4] == 'l'
  {
  }

  /** `if (off) styles.push(name)`, for a name not yet pushed. */
  method PushIf(styles: seq<string>, off: bool, name: string) returns (r: seq<string>)
    requires Distinct(styles) && (off ==> name !in styles)
    ensures Distinct(r)
    ensures forall s :: s in r <==> s in styles || (off && s == name)
  {
    r := styles;
    if off {
      DistinctSnoc(styles, name);
      r := styles + [name];
    }
  }

  /** The styles for the general options that are off, once each. */
  method GeneralStyles(o: UserOptions) returns (styles: seq<string>)
    ensures Distinct(styles)
    ensures forall s :: s in styles <==> GeneralStyle(o, s)
  {
    StyleNamesDiffer();
    styles := PushIf([], !o.useCounters, "noCounters");
    styles := PushIf(styles, !o.useQuickEntry, "noQuickEntry");
    styles := PushIf(styles, !o.useYearHeader, "noYear");
  }

  /** The style classes for the options that are off, once each. */
  method Styles(o: UserOptions) returns (styles: seq<string>)
    ensures Distinct(styles)
    ensures forall s :: s in styles <==> GeneralStyle(o, s) || (s == "noInfo" && NoInfo(o)) || (!NoInfo(o) && DetailStyle(o, s))
  {
    styles := GeneralStyles(o);
    StyleNamesDiffer();
    if NoInfo(o) {
      DistinctSnoc(styles, "noInfo");
      styles := styles + ["noInfo"];
    } else {
      styles := DetailStyles(o, styles);
    }
  }

  /**
   * Each style names one option that is off, and "noInfo" stands in for the six
   * task-detail styles exactly when all six would be wanted.
   */
  lemma StyleOfOption(o: UserOptions)
    ensures GeneralStyle(o, "noCounters") <==> !o.useCounters
    ensures GeneralStyle(o, "noQuickEntry") <==> !o.useQuickEntry
    ensures GeneralStyle(o, "noYear") <==> !o.useYearHeader
    ensures !GeneralStyle(o, "noInfo") && !DetailStyle(o, "noInfo")
    ensures DetailStyle(o, "noFile") <==> !o.useFileBadge
    ensures DetailStyle(o, "noPriority") <==> !o.usePriority
    ensures DetailStyle(o, "noRepeat") <==> !o.useRecurrence
    ensures DetailStyle(o, "noRelative") <==> !o.useRelative
    ensures DetailStyle(o, "noHeader") <==> !o.useSection
    ensures DetailStyle(o, "noTag") <==> !o.useTags
    ensures NoInfo(o) <==>
      && DetailStyle(o, "noFile") && DetailStyle(o, "noPriority") && DetailStyle(o, "noRepeat")
      && DetailStyle(o, "noRelative") && DetailStyle(o, "noHeader") && DetailStyle(o, "noTag")
  {
    assert "noInfo"[2] == 'I';
  }

  /** The else-branch: one style per task-detail option that is off. */
  method DetailStyles(o: UserOptions, before: seq<string>) returns (styles: seq<string>)
    requires Distinct(before)
    requires forall s :: s in before ==> s == "noCounters" || s == "noQuickEntry" || s == "noYear"
    ensures Distinct(styles)
    ensures forall s :: s in styles <==> (s in before
      || (s == "noFile" && !o.useFileBadge) || (s == "noPriority" && !o.usePriority)
      || (s == "noRepeat" && !o.useRecurrence) || (s == "noRelative" && !o.useRelative)
      || (s == "noHeader" && !o.useSection) || (s == "noTag" && !o.useTags))
  {
    styles := BadgeStyles(o, before);
    styles := TextStyles(o, styles);
  }

  /** The first three task-detail styles: the file, priority and recurrence badges. */
  method BadgeStyles(o: UserOptions, before: seq<string>) returns (styles: seq<string>)
    requires Distinct(before)
    requires forall s :: s in before ==> s == "noCounters" || s == "noQuickEntry" || s == "noYear"
    ensures Distinct(styles)
    ensures forall s :: s in styles <==> (s in before
      || (s == "noFile" && !o.useFileBadge) || (s == "noPriority" && !o.usePriority)
      || (s == "noRepeat" && !o.useRecurrence))
  {
    StyleNamesDiffer();
    styles := PushIf(before, !o.useFileBadge, "noFile");
    styles := PushIf(styles, !o.usePriority, "noPriority");
    styles := PushIf(styles, !o.useRecurrence, "noRepeat");
  }

  /** The last three task-detail styles: the relative date, the section header and the tags. */
  method TextStyles(o: UserOptions, before: seq<string>) returns (styles: seq<string>)
    requires Distinct(before)
    requires forall s :: s in before ==> (s == "noCounters" || s == "noQuickEntry" || s == "noYear"
      || s == "noFile" || s == "noPriority" || s == "noRepeat")
    ensures Distinct(styles)
    ensures forall s :: s in styles <==> (s in before
      || (s == "noRelative" && !o.useRelative) || (s == "noHeader" && !o.useSection) || (s == "noTag" && !o.useTags))
  {
    StyleNamesDiffer();
    styles := PushIf(before, !o.useRelative, "noRelative");
    styles := PushIf(styles, !o.useSection, "noHeader");
    styles := PushIf(styles, !o.useTags, "noTag");
  }

  /** The daily-note folder as a prefix: empty, or ending in exactly the slash it was given or one added. */
  function DailyNoteFolder(folder: string): (r: string)
    ensures folder == "" <==> r == ""
    ensures r != "" ==> EndsWith(r, "/") && StartsWith(r, folder)
    ensures EndsWith(folder, "/") ==> r == folder
  {
    if folder == "" then ""
    else if EndsWith(folder, "/") then folder
    else
      var r := folder + "/";
      assert r[|r| - 1..] == "/" && r[..|folder|] == folder;
      r
  }

  /** Normalising the folder twice is normalising it once. */
  lemma DailyNoteFolderIdempotent(folder: string)
    ensures DailyNoteFolder(DailyNoteFolder(folder)) == DailyNoteFolder(folder)
  {
  }

  /** Today's daily note: the normalised folder, the note name in the daily-note format, and ".md". */
  function DailyNotePath(o: UserOptions, todayNoteName: string): string {
    DailyNoteFolder(o.dailyNoteFolder) + todayNoteName + ".md"
  }

  /**
   * The notes the quick entry offers, once each: the task files in order of first
   * occurrence, then the inbox when it is set and not a task file, then today's daily note
   * when a format is set and it is not already there; nothing else.
   */
  ghost predicate QuickEntryFilesFit(o: UserOptions, todayNoteName: string, files: seq<string>) {
    && Distinct(files)
    && Dedup(o.taskFiles) <= files
    && (forall f :: f in files <==>
        || f in o.taskFiles
        || (o.inbox != "" && f == o.inbox)
        || (o.dailyNoteFormat != "" && f == DailyNotePath(o, todayNoteName)))
    && (o.inbox != "" && o.inbox !in o.taskFiles ==>
        |Dedup(o.taskFiles)| < |files| && files[|Dedup(o.taskFiles)|] == o.inbox)
    && (o.dailyNoteFormat != "" && DailyNotePath(o, todayNoteName) !in o.taskFiles && DailyNotePath(o, todayNoteName) != o.inbox ==>
        files[|files| - 1] == DailyNotePath(o, todayNoteName))
  }

  /**
   * The notes the quick entry offers. `todayNoteName` is today's date in the daily-note
   * format (moment's formatting is a parameter).
   */
  method QuickEntryFiles(o: UserOptions, todayNoteName: string) returns (files: seq<string>)
    ensures QuickEntryFilesFit(o, todayNoteName, files)
  {
    var set0 := Dedup(o.taskFiles);
    files := set0;
    if o.inbox != "" {
      files := AddIfAbsent(files, o.inbox);
    }
    ghost var set1 := files;
    assert set0 <= set1;
    var dailyNoteFileName := todayNoteName + ".md";
    var dailyNoteFolder := DailyNoteFolder(o.dailyNoteFolder);
    if o.dailyNoteFormat != "" {
      assert dailyNoteFolder + dailyNoteFileName == DailyNotePath(o, todayNoteName);
      files := AddIfAbsent(files, dailyNoteFolder + dailyNoteFileName);
    }
    assert set1 <= files;
  }

  /** The counter filter class: the active filter and the counter behaviour, or nothing. */
  function CounterFilterClass(filter: string, counterBehavior: string): (r: string)
    ensures filter == "" <==> r == ""
    ensures filter != "" ==> StartsWith(r, filter) && EndsWith(r, counterBehavior)
    ensures filter != "" ==> Split(r, ' ') == Split(filter, ' ') + Split(counterBehavior, ' ')
  {
    if |filter| == 0 then ""
    else
      var r := filter + " " + counterBehavior;
      assert r[..|filter|] == filter && r[|r| - |counterBehavior|..] == counterBehavior;
      SplitAround(filter, counterBehavior, ' ');
      r
  }

  /** A style the options call for: `Styles` holds exactly these. */
  predicate StyleWanted(o: UserOptions, s: string) {
    GeneralStyle(o, s) || (s == "noInfo" && NoInfo(o)) || (!NoInfo(o) && DetailStyle(o, s))
  }

  /**
   * A non-empty class of the rendered timeline: `taskido`, a wanted style, a word of the
   * active counter filter or of the counter behaviour when a filter is active, and
   * `todayFocus` when today focus is on.
   */
  predicate ClassToken(o: UserOptions, filter: string, todayFocus: bool, x: string) {
    || x == "taskido"
    || StyleWanted(o, x)
    || (filter != "" && x != "" && (x in Split(filter, ' ') || x in Split(o.counterBehavior, ' ')))
    || (todayFocus && x == "todayFocus")
  }

  /**
   * The class attribute of the timeline. Its space-separated tokens are `taskido`, the
   * tokens of the styles, those of the counter filter, and `todayFocus` or an empty token.
   */
  function ClassName(baseStyles: string, counterFilter: string, todayFocus: bool): (r: string)
    ensures StartsWith(r, "taskido ")
    ensures EndsWith(r, if todayFocus then " todayFocus" else " ")
    ensures Split(r, ' ') == ["taskido"] + Split(baseStyles, ' ') + Split(counterFilter, ' ') + [if todayFocus then "todayFocus" else ""]
  {
    var focus := if todayFocus then "todayFocus" else "";
    var r := "taskido " + baseStyles + " " + counterFilter + " " + focus;
    assert r[..8] == "taskido ";
    assert r[|r| - |if todayFocus then " todayFocus" else " "|..] == if todayFocus then " todayFocus" else " ";
    ClassNameTokens(baseStyles, counterFilter, focus);
    r
  }

  lemma ClassNameTokens(baseStyles: string, counterFilter: string, focus: string)
    requires ' ' !in focus
    ensures Split("taskido " + baseStyles + " " + counterFilter + " " + focus, ' ')
      == ["taskido"] + Split(baseStyles, ' ') + Split(counterFilter, ' ') + [focus]
  {
    var head := "taskido";
    calc {
      Split("taskido " + baseStyles + " " + counterFilter + " " + focus, ' ');
      { assert "taskido " + baseStyles + " " + counterFilter + " " + focus
          == head + [' '] + baseStyles + [' '] + counterFilter + [' '] + focus; }
      Split(head + [' '] + baseStyles + [' '] + counterFilter + [' '] + focus, ' ');
      { SplitFour(head, baseStyles, counterFilter, focus, ' '); }
      Split(head, ' ') + Split(baseStyles, ' ') + Split(counterFilter, ' ') + Split(focus, ' ');
      { SplitNoSep(head, ' '); SplitNoSep(focus, ' '); }
      ["taskido"] + Split(baseStyles, ' ') + Split(counterFilter, ' ') + [focus];
    }
  }

  lemma SplitFour(a: string, b: string, c: string, d: string, sep: char)
    ensures Split(a + [sep] + b + [sep] + c + [sep] + d, sep) == Split(a, sep) + Split(b, sep) + Split(c, sep) + Split(d, sep)
  {
    var cd := c + [sep] + d;
    var bcd := b + [sep] + cd;
    calc {
      Split(a + [sep] + b + [sep] + c + [sep] + d, sep);
      { assert a + [sep] + b + [sep] + c + [sep] + d == a + [sep] + bcd; }
      Split(a + [sep] + bcd, sep);
      { SplitAround(a, bcd, sep); }
      Split(a, sep) + Split(bcd, sep);
      { SplitAround(b, cd, sep); }
      Split(a, sep) + (Split(b, sep) + Split(cd, sep));
      { SplitAround(c, d, sep); }
      Split(a, sep) + (Split(b, sep) + (Split(c, sep) + Split(d, sep)));
    }
  }

  /** Joining space-free style names with spaces and splitting again gives the names, or one empty token for none. */
  lemma StyleTokens(styles: seq<string>)
    requires forall k :: 0 <= k < |styles| ==> ' ' !in styles[k]
    ensures Split(Join(styles, ' '), ' ') == if styles == [] then [""] else styles
  {
    if styles != [] {
      SplitJoin(styles, ' ');
    }
  }

  // ---------------------------------------------------------------------------------------
  // The component
  // ---------------------------------------------------------------------------------------

  /** The next counter filter after a click on the counter named `filterName`. */
  function NextFilter(filter: string, filterName: string): (r: string)
    ensures filter != filterName ==> r == filterName
    ensures filter == filterName ==> r == ""
  {
    if filter != filterName then filterName else ""
  }

  /** Two clicks on the same counter restore its filter when it was active, and clear any other. */
  lemma NextFilterTwice(filter: string, filterName: string)
    ensures NextFilter(NextFilter(filter, filterName), filterName) == if filter == filterName then filterName else ""
  {
  }

  /** A rendered timeline. */
  datatype TimelineModel = TimelineModel(
    className: string,
    entryOnDate: Date,
    taskFiles: seq<string>,
    counters: Counters,
    years: seq<int>,
    yearViews: seq<YearModel>)

  /** What the timeline takes from outside: today, today's daily-note name, the status names and `filterYear`. */
  datatype Environment = Environment(
    today: Date,
    todayNoteName: string,
    names: StatusNames,
    inYear: (Task, int) -> bool,
    onDate: (Task, Date) -> bool)

  /** The tasks the year view of `year` receives. */
  function YearTasks(tasks: seq<Task>, inYear: (Task, int) -> bool, year: int): (r: seq<Task>)
    ensures forall t :: t in r <==> t in tasks && inYear(t, year)
  {
    Filter(tasks, (t: Task) => inYear(t, year))
  }

  /**
   * The view of `year` has a header exactly when the year has tasks, shows only days of
   * that year, and shows the entry date when it falls in that year. More exactly, it is
   * the year view of the year's tasks: its header, its days in strictly ascending order
   * (the dates of the year's tasks in that year, and the entry date when it falls in it),
   * and for each day the view of that day.
   */
  ghost predicate FitsYear(view: YearModel, year: int, tasks: seq<Task>, env: Environment, ctx: DayContext) {
    var yearTasks := YearTasks(tasks, env.inYear, year);
    && (view.header.Some? <==> yearTasks != [])
    && (forall d :: d in view.days ==> d.year == year)
    && (year == ctx.entryOnDate.year ==> ctx.entryOnDate in view.days)
    && view.header == YearHeaderOf(year, yearTasks, ctx.today)
    && StrictlyAscending(view.days, DateLe)
    && (forall d :: d in view.days <==> d.year == year && (InvolvedIn(yearTasks, d) || d == ctx.entryOnDate))
    && |view.dates| == |view.days|
    && (forall i :: 0 <= i < |view.days| ==> view.dates[i] == DayOf(yearTasks, env.onDate, ctx, view.days[i]))
  }

  /** `years.map(...)`: one year view per year, over the tasks of that year. */
  method RenderYears(years: seq<int>, tasks: seq<Task>, env: Environment, ctx: DayContext) returns (yearViews: seq<YearModel>)
    ensures |yearViews| == |years|
    ensures forall k :: 0 <= k < |years| ==> FitsYear(yearViews[k], years[k], tasks, env, ctx)
  {
    yearViews := [];
    var i := 0;
    while i < |years|
      invariant 0 <= i <= |years|
      invariant |yearViews| == i
      invariant forall k :: 0 <= k < i ==> FitsYear(yearViews[k], years[k], tasks, env, ctx)
    {
      var view := YearView(years[i], YearTasks(tasks, env.inYear, years[i]), env.onDate, ctx);
      assert FitsYear(view, years[i], tasks, env, ctx);
      yearViews := yearViews + [view];
      i := i + 1;
    }
  }

  /** The class attribute starts with `taskido `, and its non-empty tokens are exactly the `ClassToken`s. */
  ghost predicate ClassNameFits(o: UserOptions, filter: string, todayFocus: bool, className: string) {
    && StartsWith(className, "taskido ")
    && forall x :: x in Split(className, ' ') && x != "" <==> ClassToken(o, filter, todayFocus, x)
  }

  /**
   * The class attribute `taskido ${baseStyles} ${counterFilter} ${todayFocus}`: its
   * non-empty tokens are `taskido`, the wanted styles, the words of the active filter and
   * of the counter behaviour, and `todayFocus` when it is on.
   */
  method RenderClassName(o: UserOptions, filter: string, todayFocus: bool) returns (className: string)
    ensures ClassNameFits(o, filter, todayFocus, className)
  {
    var styles := Styles(o);
    var baseStyles := Join(Dedup(styles), ' ');
    var counterFilter := CounterFilterClass(filter, o.counterBehavior);
    className := ClassName(baseStyles, counterFilter, todayFocus);
    RenderClassTokens(o, styles, filter, todayFocus);
  }

  /** The tokens of the class attribute built from `Styles(o)`, the filter and today focus. */
  lemma RenderClassTokens(o: UserOptions, styles: seq<string>, filter: string, todayFocus: bool)
    requires Distinct(styles) && forall s :: s in styles <==> StyleWanted(o, s)
    ensures var className := ClassName(Join(Dedup(styles), ' '), CounterFilterClass(filter, o.counterBehavior), todayFocus);
      forall x :: x in Split(className, ' ') && x != "" <==> ClassToken(o, filter, todayFocus, x)
  {
    var counterFilter := CounterFilterClass(filter, o.counterBehavior);
    var styleTokens := Split(Join(styles, ' '), ' ');
    var filterTokens := Split(counterFilter, ' ');
    var focus := if todayFocus then "todayFocus" else "";
    var tokens := ["taskido"] + styleTokens + filterTokens + [focus];
    assert Dedup(styles) == styles;
    assert Split(ClassName(Join(styles, ' '), counterFilter, todayFocus), ' ') == tokens;
    StyleTokenMembers(o, styles);
    FilterTokenMembers(filter, o.counterBehavior);
    forall x
      ensures x in tokens && x != "" <==> ClassToken(o, filter, todayFocus, x)
    {
      assert x in tokens <==> x == "taskido" || x in styleTokens || x in filterTokens || x == focus;
    }
  }

  /** The non-empty tokens of the joined styles are the wanted styles. */
  lemma StyleTokenMembers(o: UserOptions, styles: seq<string>)
    requires forall s :: s in styles <==> StyleWanted(o, s)
    ensures forall x :: x in Split(Join(styles, ' '), ' ') && x != "" <==> StyleWanted(o, x)
  {
    forall k | 0 <= k < |styles|
      ensures ' ' !in styles[k]
    {
      assert styles[k] in styles;
      StyleNoSpace(o, styles[k]);
    }
    StyleTokens(styles);
    forall x | StyleWanted(o, x)
      ensures x != ""
    {
      StyleNoSpace(o, x);
    }
  }

  /** The non-empty tokens of the counter filter class are the words of the filter and the behaviour, when a filter is set. */
  lemma FilterTokenMembers(filter: string, counterBehavior: string)
    ensures forall x :: x in Split(CounterFilterClass(filter, counterBehavior), ' ') && x != "" <==>
      filter != "" && x != "" && (x in Split(filter, ' ') || x in Split(counterBehavior, ' '))
  {
    if filter == "" {
      assert CounterFilterClass(filter, counterBehavior) == "";
      assert Split("", ' ') == [""];
    }
  }

  /** No style name is empty or holds a space. */
  lemma StyleNoSpace(o: UserOptions, s: string)
    requires StyleWanted(o, s)
    ensures ' ' !in s && |s| >= 5
  {
  }

  /** The timeline component: the options it was created with and its two pieces of state. */
  class TimelineView {
    const options: UserOptions
    var filter: string
    var todayFocus: bool

    constructor(options: UserOptions)
      ensures this.options == options
      ensures filter == options.defaultFilters && todayFocus == options.defaultTodayFocus
    {
      this.options := options;
      filter := options.defaultFilters;
      todayFocus := options.defaultTodayFocus;
    }

    /** A click on a counter makes its filter the active one, or clears it when it already was. */
    method HandleCounterFilterClick(filterName: string)
      modifies this
      ensures filter == NextFilter(old(filter), filterName)
      ensures todayFocus == old(todayFocus)
    {
      if filter != filterName {
        filter := filterName;
      } else {
        filter := "";
      }
    }

    /** The today-focus button toggles today focus. */
    method HandleTodayFocus()
      modifies this
      ensures todayFocus == !old(todayFocus)
      ensures filter == old(filter)
    {
      todayFocus := !todayFocus;
    }

    /** `render`: the timeline's class, its file list and counters, and one year view per year. */
    method Render(tasks: seq<Task>, env: Environment) returns (m: TimelineModel)
      ensures m.counters == CountTasks(tasks, env.names)
      ensures m.years != [] && forall i :: 0 <= i < |m.years| - 1 ==> m.years[i + 1] == m.years[i] + 1
      ensures env.today.year in m.years
      ensures forall i, d :: 0 <= i < |tasks| && d in TaskDates(tasks[i]) ==> d.year in m.years
      ensures |m.yearViews| == |m.years|
      ensures forall k :: 0 <= k < |m.years| ==>
        FitsYear(m.yearViews[k], m.years[k], tasks, env, DayContext(m.entryOnDate, env.today, options.forward, env.names.overdue))
      ensures exists d :: Involved(tasks, env.today, d) && d.year == m.years[0]
      ensures exists d :: Involved(tasks, env.today, d) && d.year == m.years[|m.years| - 1]
      ensures m.entryOnDate.year in m.years && Involved(tasks, env.today, m.entryOnDate)
      ensures options.entryPosition == "top" ==> forall d :: Involved(tasks, env.today, d) ==> DateLe(m.entryOnDate, d)
      ensures options.entryPosition == "bottom" ==> forall d :: Involved(tasks, env.today, d) ==> DateLe(d, m.entryOnDate)
      ensures options.entryPosition != "top" && options.entryPosition != "bottom" ==> m.entryOnDate == env.today
      ensures QuickEntryFilesFit(options, env.todayNoteName, m.taskFiles)
      ensures ClassNameFits(options, filter, todayFocus, m.className)
    {
      var sortedDatas := InvolvedDates(tasks, env.today);
      var years := Years(sortedDatas);
      forall i, d | 0 <= i < |tasks| && d in TaskDates(tasks[i]) ensures d.year in years {
        assert InvolvedIn(tasks, d);
      }
      var counters := CountTasks(tasks, env.names);
      var taskFiles := QuickEntryFiles(options, env.todayNoteName);
      var className := RenderClassName(options, filter, todayFocus);
      var entryOnDate := EntryOnDate(options.entryPosition, sortedDatas, env.today);
      InvolvedBounds(tasks, env.today, sortedDatas, options.entryPosition);
      var ctx := DayContext(entryOnDate, env.today, options.forward, env.names.overdue);
      assert entryOnDate.year in years;
      var yearViews := RenderYears(years, tasks, env, ctx);
      m := TimelineModel(className, entryOnDate, taskFiles, counters, years, yearViews);
    }
  }
}

/**
 * The date view: one day of the timeline with its task list, and the quick-entry panel
 * shown on the entry date: the rewrite of keywords in the new-task text, the OK button,
 * the labels of the file select, and the multi-select used to pick filters.
 */
module DateViews {
  import opened Wrappers
  import opened Seqs
  import opened Strings
  import opened Dates
  import opened Tasks

  // ---------------------------------------------------------------------------------------
  // One day
  // ---------------------------------------------------------------------------------------

  /** The block of a day: styled as today or not, with the year and the distinct statuses as data attributes. */
  datatype DateBlock = DateBlock(today: bool, year: int, dataTypes: seq<string>, tasks: seq<Task>)

  /**
   * A rendered day: whether the entry widgets (today focus, counters, quick entry) appear
   * on it, and its block, which is absent when no task is left to show.
   */
  datatype DateModel = DateModel(date: Date, isEntryDate: bool, block: Option<DateBlock>)

  /** The `forward` option: on any day other than today, overdue tasks are hidden. */
  function ForwardFilter(tasks: seq<Task>, forward: bool, isToday: bool, overdue: string): (r: seq<Task>)
    ensures !forward || isToday ==> r == tasks
    ensures forward && !isToday ==> forall t :: t in r <==> t in tasks && t.status != overdue
    ensures |r| <= |tasks|
  {
    if forward && !isToday then Filter(tasks, (t: Task) => t.status != overdue) else tasks
  }

  /** `DateView.render` for the day `date`, given the day's tasks. */
  function DateView(date: Date, tasks: seq<Task>, entryOnDate: Date, today: Date, forward: bool, overdue: string): (v: DateModel)
    ensures v.date == date
    ensures v.isEntryDate <==> date == entryOnDate
    ensures v.block.Some? <==> ForwardFilter(tasks, forward, date == today, overdue) != []
    ensures v.block.Some? ==>
      && v.block.value.tasks == ForwardFilter(tasks, forward, date == today, overdue)
      && (v.block.value.today <==> date == today)
      && v.block.value.year == date.year
      && Distinct(v.block.value.dataTypes)
      && v.block.value.dataTypes == Statuses(v.block.value.tasks)
      && forall x :: x in v.block.value.dataTypes <==> exists t :: t in v.block.value.tasks && t.status == x
  {
    var isToday := date == today;
    var shown := ForwardFilter(tasks, forward, isToday, overdue);
    var block := if |shown| > 0 then Some(DateBlock(isToday, date.year, Statuses(shown), shown)) else None;
    DateModel(date, date == entryOnDate, block)
  }

  // ---------------------------------------------------------------------------------------
  // The new-task rewrite
  // ---------------------------------------------------------------------------------------

  /** The symbols the Tasks plugin writes for its fields. */
  datatype Sigils = Sigils(due: string, start: string, scheduled: string, done: string, recurrence: string)

  /**
   * moment's clock and calendar, as parameters: today's day number, the "YYYY-MM-DD"
   * rendering of a day, and adding months to a day (moment adds years as twelve months).
   */
  datatype Clock = Clock(today: DayNumber, format: DayNumber -> string, addMonths: (DayNumber, int) -> DayNumber)

  /** The alternatives of the unit group of the "in N units" expression, in order. */
  const Units: seq<string> := ["days", "day", "weeks", "week", "month", "years", "year"]

  /** The weekday names indexed by ISO weekday (index 0 is unused). */
  const Weekdays: seq<string> := ["", "monday", "tuesday", "wednesday", "thursday", "friday", "saturday", "sunday"]

  /** The length of the run of ASCII digits starting at `j`. */
  function DigitRun(t: string, j: nat): (k: nat)
    requires j <= |t|
    decreases |t| - j
    ensures j + k <= |t|
    ensures forall m :: j <= m < j + k ==> IsDigit(t[m])
    ensures j + k < |t| ==> !IsDigit(t[j + k])
  {
    if j < |t| && IsDigit(t[j]) then 1 + DigitRun(t, j + 1) else 0
  }

  /** `parseInt` of a string of decimal digits. */
  function DigitsValue(s: string): (n: nat)
    requires forall m :: 0 <= m < |s| ==> IsDigit(s[m])
  {
    if s == [] then 0
    else
      var last := s[|s| - 1];
      assert IsDigit(last);
      DigitsValue(s[..|s| - 1]) * 10 + (last as int - '0' as int)
  }

  /** The first alternative of `Units`, from index `k` on, that occurs followed by a space at `j`. */
  function FirstUnit(t: string, j: nat, k: nat): (u: Option<nat>)
    requires k <= |Units|
    decreases |Units| - k
    ensures u.Some? ==> k <= u.value < |Units| && OccursAt(t, Units[u.value] + " ", j)
    ensures u.Some? ==> forall v :: k <= v < u.value ==> !OccursAt(t, Units[v] + " ", j)
    ensures u.None? ==> forall v :: k <= v < |Units| ==> !OccursAt(t, Units[v] + " ", j)
  {
    if k == |Units| then None
    else if OccursAt(t, Units[k] + " ", j) then Some(k)
    else FirstUnit(t, j, k + 1)
  }

  /** A match of the "in N units" expression: where it starts, its text, the number and the unit. */
  datatype FutureMatch = FutureMatch(at: nat, text: string, value: nat, unit: string)

  /**
   * `(in)\W(\d{1,3})\W(days|day|weeks|week|month|years|year) ` matched at index `i`. The
   * digits must be the whole run of digits there: a longer run leaves a digit where `\W`
   * is needed, whatever the backtracking. Each `\W` is one code unit, so a character outside
   * the Basic Multilingual Plane there leaves half a pair before the digits or the unit.
   */
  function FutureDateAt(t: string, i: nat): (m: Option<FutureMatch>)
    ensures m.Some? ==> m.value.at == i && OccursAt(t, m.value.text, i) && m.value.unit in Units
    ensures m.Some? ==> StartsWith(m.value.text, "in") && EndsWith(m.value.text, m.value.unit + " ")
  {
    if !(i + 3 <= |t| && t[i..i + 2] == "in" && NonWordUnit(t[i + 2])) then None
    else
      var k := DigitRun(t, i + 3);
      if !(1 <= k <= 3 && i + 3 + k < |t| && NonWordUnit(t[i + 3 + k])) then None
      else
        match FirstUnit(t, i + 4 + k, 0)
        case None => None
        case Some(u) =>
          var end := i + 4 + k + |Units[u]| + 1;
          var text := t[i..end];
          SliceEnds(t, i, i + 4 + k, end, "in", Units[u] + " ");
          Some(FutureMatch(i, text, DigitsValue(t[i + 3..i + 3 + k]), Units[u]))
  }

  /** A slice that starts with `pre` at `i` and ends with `suf` at `j` occurs at `i`, starting and ending so. */
  lemma SliceEnds(t: string, i: nat, j: nat, end: nat, pre: string, suf: string)
    requires i + |pre| <= j && j + |suf| == end <= |t|
    requires t[i..i + |pre|] == pre && t[j..end] == suf
    ensures OccursAt(t, t[i..end], i) && StartsWith(t[i..end], pre) && EndsWith(t[i..end], suf)
  {
    assert t[i..end][..|pre|] == pre;
    assert t[i..end][end - i - |suf|..] == suf;
  }

  /** The leftmost match at or after `from` of a matcher `at` over the positions below `n`. */
  function Leftmost<M>(n: nat, at: nat -> Option<M>, from: nat): (r: Option<M>)
    decreases n - from
    ensures r.Some? ==> exists i :: from <= i < n && at(i) == r && forall j :: from <= j < i ==> at(j).None?
    ensures r.None? ==> forall i :: from <= i < n ==> at(i).None?
  {
    if from >= n then None
    else if at(from).Some? then at(from)
    else Leftmost(n, at, from + 1)
  }

  /** `newTask.match(...)` for the "in N units" expression: its leftmost match. */
  function FutureDateMatch(t: string): Option<FutureMatch> {
    Leftmost(|t| + 1, (i: nat) => FutureDateAt(t, i), 0)
  }

  /** The first weekday, from `w` on, whose name followed by a space occurs at `i`. */
  function WeekdayAt(t: string, i: nat, w: nat): (d: Option<nat>)
    requires 1 <= w <= 8
    decreases 8 - w
    ensures d.Some? ==> w <= d.value <= 7 && OccursAt(t, Weekdays[d.value] + " ", i)
    ensures d.None? ==> forall v :: w <= v <= 7 ==> !OccursAt(t, Weekdays[v] + " ", i)
  {
    if w == 8 then None
    else if OccursAt(t, Weekdays[w] + " ", i) then Some(w)
    else WeekdayAt(t, i, w + 1)
  }

  /** `newTask.match(...)` for the weekday expression: the weekday of its leftmost match. */
  function WeekdayMatch(t: string): (d: Option<nat>)
    ensures d.Some? ==> 1 <= d.value <= 7 && exists i :: OccursAt(t, Weekdays[d.value] + " ", i)
  {
    Leftmost(|t| + 1, (i: nat) => WeekdayAt(t, i, 1), 0)
  }

  /**
   * The day `moment().isoWeekday(n)` picks when today's ISO weekday is below `n`, and
   * `moment().add(1, 'weeks').isoWeekday(n)` otherwise.
   */
  function NextWeekday(today: DayNumber, dayINeed: int): (d: DayNumber)
    requires 1 <= dayINeed <= 7
    ensures today < d <= today + 7
    ensures IsoWeekday(d) == dayINeed
    ensures IsoWeekday(today) < dayINeed <==> d - today < 7 && d - today == dayINeed - IsoWeekday(today)
  {
    var wd := IsoWeekday(today);
    var k := if wd < dayINeed then dayINeed - wd else 7 + dayINeed - wd;
    IsoWeekdayShift(today, k);
    today + k
  }

  /** `moment().add(value, unit)`. */
  function FutureDay(c: Clock, value: nat, unit: string): DayNumber {
    if unit == "days" || unit == "day" then c.today + value
    else if unit == "weeks" || unit == "week" then c.today + 7 * value
    else if unit == "month" then c.addMonths(c.today, value)
    else c.addMonths(c.today, 12 * value)
  }

  /** A keyword rule: when `key` (the keyword and a space) occurs, the first `word` is replaced by `rep`. */
  function KeywordRewrite(t: string, key: string, word: string, rep: string): Option<string> {
    if Contains(t, key) then Some(ReplaceFirst(t, word, rep)) else None
  }

  /** The "in N units" rule: the matched text is replaced by the day it names and a space. */
  function FutureRewrite(t: string, c: Clock): Option<string> {
    match FutureDateMatch(t)
    case None => None
    case Some(m) => Some(ReplaceFirst(t, m.text, c.format(FutureDay(c, m.value, m.unit)) + " "))
  }

  /** The weekday rule: the first occurrence of the matched name is replaced by the next such day. */
  function WeekdayRewrite(t: string, c: Clock): Option<string> {
    match WeekdayMatch(t)
    case None => None
    case Some(w) => Some(ReplaceFirst(t, Weekdays[w], c.format(NextWeekday(c.today, w))))
  }

  /** The number of rules of `onQuickEntryNewTaskInput`. */
  const RuleCount: nat := 11

  /** `moment().add(offset, "days")`, formatted. */
  function FormattedDay(c: Clock, offset: int): string {
    c.format(c.today + offset)
  }

  /**
   * The keyword rules of `onQuickEntryNewTaskInput`, in source order: the keyword and space
   * that must occur, the word whose first occurrence is replaced, and its replacement.
   */
  function Keyword(c: Clock, sig: Sigils, k: nat): (string, string, string)
    requires k < RuleCount - 2
  {
    if k == 0 then ("due ", "due", sig.due)
    else if k == 1 then ("start ", "start", sig.start)
    else if k == 2 then ("scheduled ", "scheduled", sig.scheduled)
    else if k == 3 then ("done ", "done", sig.done)
    else if k == 4 then ("repeat ", "repeat", sig.recurrence)
    else if k == 5 then ("recurring ", "recurring", sig.recurrence)
    else if k == 6 then ("today ", "today", FormattedDay(c, 0))
    else if k == 7 then ("tomorrow ", "tomorrow", FormattedDay(c, 1))
    else ("yesterday ", "yesterday", FormattedDay(c, -1))
  }

  /**
   * The rule `k` of `onQuickEntryNewTaskInput`, in source order, applied to the text as
   * typed: `Some` of its result when it applies, `None` otherwise. The keyword rules come
   * first, then the "in N units" rule, then the weekday rule.
   */
  function Rule(t: string, c: Clock, sig: Sigils, k: nat): Option<string>
    requires k < RuleCount
  {
    if k < RuleCount - 2 then
      var kw := Keyword(c, sig, k);
      KeywordRewrite(t, kw.0, kw.1, kw.2)
    else if k == RuleCount - 2 then FutureRewrite(t, c)
    else WeekdayRewrite(t, c)
  }

  /** The input's value after a rule: its result when it applies, the previous value otherwise. */
  function Overwrite(value: string, rule: Option<string>): string {
    if rule.Some? then rule.value else value
  }

  /** The input's value once the first `n` rules have run over the text as typed. */
  function AfterRules(t: string, c: Clock, sig: Sigils, n: nat): string
    requires n <= RuleCount
  {
    if n == 0 then t else Overwrite(AfterRules(t, c, sig, n - 1), Rule(t, c, sig, n - 1))
  }

  /** The text after `onQuickEntryNewTaskInput`. */
  function QuickEntryRewrite(t: string, c: Clock, sig: Sigils): string {
    AfterRules(t, c, sig, RuleCount)
  }

  /** The input's value after the rule results `rs`, in order, over the text as typed `t`. */
  function Overwrites(t: string, rs: seq<Option<string>>): string {
    if rs == [] then t else Overwrite(Overwrites(t, rs[..|rs| - 1]), rs[|rs| - 1])
  }

  /** When no rule applies, the input keeps the text as typed. */
  lemma {:induction false} OverwritesNoneApply(t: string, rs: seq<Option<string>>)
    requires forall k :: 0 <= k < |rs| ==> rs[k].None?
    ensures Overwrites(t, rs) == t
  {
    if rs != [] {
      OverwritesNoneApply(t, rs[..|rs| - 1]);
    }
  }

  /**
   * As every rule reads the text as typed, the rules do not compose: the input holds the
   * result of the last rule that applies.
   */
  lemma {:induction false} OverwritesLastWins(t: string, rs: seq<Option<string>>, k: nat)
    requires k < |rs| && rs[k].Some?
    requires forall j :: k < j < |rs| ==> rs[j].None?
    ensures Overwrites(t, rs) == rs[k].value
  {
    if k < |rs| - 1 {
      OverwritesLastWins(t, rs[..|rs| - 1], k);
    }
  }

  /** The results of the first `n` rules over the text as typed. */
  function RuleResults(t: string, c: Clock, sig: Sigils, n: nat): (rs: seq<Option<string>>)
    requires n <= RuleCount
    ensures |rs| == n && forall k :: 0 <= k < n ==> rs[k] == Rule(t, c, sig, k)
  {
    if n == 0 then [] else RuleResults(t, c, sig, n - 1) + [Rule(t, c, sig, n - 1)]
  }

  /** Running the first `n` rules is overwriting the text with their results in order. */
  lemma {:induction false} AfterRulesOverwrites(t: string, c: Clock, sig: Sigils, n: nat)
    requires n <= RuleCount
    ensures AfterRules(t, c, sig, n) == Overwrites(t, RuleResults(t, c, sig, n))
  {
    if n > 0 {
      AfterRulesOverwrites(t, c, sig, n - 1);
      var rs := RuleResults(t, c, sig, n);
      assert rs[..n - 1] == RuleResults(t, c, sig, n - 1);
    }
  }

  /** The whole rewrite: the last applicable rule wins, and a text no rule applies to is kept. */
  lemma QuickEntryRewriteSpec(t: string, c: Clock, sig: Sigils)
    ensures (forall k :: 0 <= k < RuleCount ==> Rule(t, c, sig, k).None?) ==> QuickEntryRewrite(t, c, sig) == t
    ensures forall k :: 0 <= k < RuleCount && Rule(t, c, sig, k).Some? && (forall j :: k < j < RuleCount ==> Rule(t, c, sig, j).None?) ==>
      QuickEntryRewrite(t, c, sig) == Rule(t, c, sig, k).value
  {
    var rs := RuleResults(t, c, sig, RuleCount);
    AfterRulesOverwrites(t, c, sig, RuleCount);
    if forall k :: 0 <= k < RuleCount ==> Rule(t, c, sig, k).None? {
      OverwritesNoneApply(t, rs);
    }
    forall k | 0 <= k < RuleCount && Rule(t, c, sig, k).Some? && (forall j :: k < j < RuleCount ==> Rule(t, c, sig, j).None?)
      ensures QuickEntryRewrite(t, c, sig) == Rule(t, c, sig, k).value
    {
      OverwritesLastWins(t, rs, k);
    }
  }

  /**
   * The body of `onQuickEntryNewTaskInput`: each rule reads the text as typed and, when it
   * applies, overwrites the input's value.
   */
  method RewriteTyped(newTask: string, c: Clock, sig: Sigils) returns (value: string)
    ensures value == QuickEntryRewrite(newTask, c, sig)
  {
    value := newTask;
    AfterRulesStep(newTask, c, sig, 0);
    value := KeywordRule(value, newTask, "due ", "due", sig.due);
    assert value == AfterRules(newTask, c, sig, 1);
    AfterRulesStep(newTask, c, sig, 1);
    value := KeywordRule(value, newTask, "start ", "start", sig.start);
    assert value == AfterRules(newTask, c, sig, 2);
    AfterRulesStep(newTask, c, sig, 2);
    value := KeywordRule(value, newTask, "scheduled ", "scheduled", sig.scheduled);
    assert value == AfterRules(newTask, c, sig, 3);
    AfterRulesStep(newTask, c, sig, 3);
    value := KeywordRule(value, newTask, "done ", "done", sig.done);
    assert value == AfterRules(newTask, c, sig, 4);
    AfterRulesStep(newTask, c, sig, 4);
    value := KeywordRule(value, newTask, "repeat ", "repeat", sig.recurrence);
    assert value == AfterRules(newTask, c, sig, 5);
    AfterRulesStep(newTask, c, sig, 5);
    value := KeywordRule(value, newTask, "recurring ", "recurring", sig.recurrence);
    assert value == AfterRules(newTask, c, sig, 6);
    AfterRulesStep(newTask, c, sig, 6);
    value := KeywordRule(value, newTask, "today ", "today", FormattedDay(c, 0));
    assert value == AfterRules(newTask, c, sig, 7);
    AfterRulesStep(newTask, c, sig, 7);
    value := KeywordRule(value, newTask, "tomorrow ", "tomorrow", FormattedDay(c, 1));
    assert value == AfterRules(newTask, c, sig, 8);
    AfterRulesStep(newTask, c, sig, 8);
    value := KeywordRule(value, newTask, "yesterday ", "yesterday", FormattedDay(c, -1));
    assert value == AfterRules(newTask, c, sig, 9);
    AfterRulesStep(newTask, c, sig, 9);
    value := FutureDateRule(value, newTask, c);
    assert value == AfterRules(newTask, c, sig, 10);
    AfterRulesStep(newTask, c, sig, 10);
    value := WeekdayRule(value, newTask, c);
    assert value == AfterRules(newTask, c, sig, RuleCount);
  }

  /** One more rule run: the input's value after `n + 1` rules. */
  lemma AfterRulesStep(t: string, c: Clock, sig: Sigils, n: nat)
    requires n < RuleCount
    ensures AfterRules(t, c, sig, n + 1) == Overwrite(AfterRules(t, c, sig, n), Rule(t, c, sig, n))
  {
  }

  /** One keyword rule: `if (newTask.includes(key)) value = newTask.replace(word, rep)`. */
  method KeywordRule(value: string, newTask: string, key: string, word: string, rep: string) returns (v: string)
    ensures v == Overwrite(value, KeywordRewrite(newTask, key, word, rep))
  {
    v := value;
    if Contains(newTask, key) {
      v := ReplaceFirst(newTask, word, rep);
    }
  }

  /** The "in N units" rule. */
  method FutureDateRule(value: string, newTask: string, c: Clock) returns (v: string)
    ensures v == Overwrite(value, FutureRewrite(newTask, c))
  {
    v := value;
    var futureDate := FutureDateMatch(newTask);
    if futureDate.Some? {
      var date := c.format(FutureDay(c, futureDate.value.value, futureDate.value.unit)) + " ";
      v := ReplaceFirst(newTask, futureDate.value.text, date);
    }
  }

  /** The weekday rule. */
  method WeekdayRule(value: string, newTask: string, c: Clock) returns (v: string)
    ensures v == Overwrite(value, WeekdayRewrite(newTask, c))
  {
    v := value;
    var weekday := WeekdayMatch(newTask);
    if weekday.Some? {
      var dayINeed := weekday.value;
      v := ReplaceFirst(newTask, Weekdays[dayINeed], c.format(NextWeekday(c.today, dayINeed)));
    }
  }

  // ---------------------------------------------------------------------------------------
  // The OK button, the file labels and the multi-select
  // ---------------------------------------------------------------------------------------

  /** What the OK button asks of the bridge. */
  datatype Command =
    | NoCommand
    | CreateTask(filePath: string, text: string)
    | EnableFilter(from: Option<string>, to: Option<string>, priorities: seq<string>)

  /**
   * The OK button: in append mode a task is created only from a selected file and a text
   * whose `length` (in UTF-16 code units) exceeds one; in any other mode the filters are
   * forwarded.
   */
  function OkCommand(action: string, filePath: string, newTask: string, from: Option<string>, to: Option<string>,
                     priorities: seq<string>): (cmd: Command)
    ensures cmd.CreateTask? <==> action == "append" && filePath != "" && Utf16Length(newTask) > 1
    ensures cmd.CreateTask? <==> action == "append" && filePath != "" && (|newTask| > 1 || (|newTask| == 1 && !SingleUnit(newTask[0])))
    ensures cmd.CreateTask? ==> cmd.filePath == filePath && cmd.text == newTask
    ensures cmd.EnableFilter? <==> action != "append"
    ensures cmd.EnableFilter? ==> cmd.from == from && cmd.to == to && cmd.priorities == priorities
  {
    if action == "append" then
      if newTask == "" || filePath == "" then NoCommand
      else
        Utf16LengthAboveOne(newTask);
        if Utf16Length(newTask) > 1 then CreateTask(filePath, newTask) else NoCommand
    else EnableFilter(from, to, priorities)
  }

  const Ellipsis: string := "\U{E2}\U{20AC}\U{A6} / "
  const FolderGlyph: string := "\U{F0}\U{178}\U{201C}\U{201A} "
  const FileGlyph: string := "\U{F0}\U{178}\U{201C}\U{201E} "

  /** `!(parts[parts.length - back])` fails: the segment exists and is non-empty. */
  predicate SegmentPresent(parts: seq<string>, back: nat) {
    1 <= back <= |parts| && parts[|parts| - back] != ""
  }

  /**
   * The caption of a file in the file select: the parent folder, when there is one, preceded
   * by an ellipsis when there is a folder above it, then the file's title.
   */
  function FileOptionLabel(f: string, getFileTitle: string -> string): (caption: string)
    ensures EndsWith(caption, FileGlyph + getFileTitle(f))
    ensures var parts := Split(f, '/');
      && (SegmentPresent(parts, 2) ==> StartsWith(caption, if SegmentPresent(parts, 3) then Ellipsis else FolderGlyph))
      && (!SegmentPresent(parts, 2) ==> caption == FileGlyph + getFileTitle(f))
  {
    var parts := Split(f, '/');
    var n := |parts|;
    var secondParentFolder := if !SegmentPresent(parts, 3) then "" else Ellipsis;
    var parentFolder := if !SegmentPresent(parts, 2) then "" else secondParentFolder + FolderGlyph + parts[n - 2] + " / ";
    var caption := parentFolder + FileGlyph + getFileTitle(f);
    assert caption[|caption| - |FileGlyph + getFileTitle(f)|..] == FileGlyph + getFileTitle(f);
    caption
  }

  /** A note at the top of the vault is labelled by its title alone. */
  lemma FileOptionLabelRoot(f: string, getFileTitle: string -> string)
    requires '/' !in f
    ensures FileOptionLabel(f, getFileTitle) == FileGlyph + getFileTitle(f)
  {
    SplitNoSep(f, '/');
  }

  /** A note in a top-level folder is labelled by that folder and its title, without an ellipsis. */
  lemma FileOptionLabelOneFolder(folder: string, name: string, getFileTitle: string -> string)
    requires folder != "" && '/' !in folder && '/' !in name
    ensures FileOptionLabel(folder + "/" + name, getFileTitle)
      == FolderGlyph + folder + " / " + FileGlyph + getFileTitle(folder + "/" + name)
  {
    SplitAround(folder, name, '/');
    SplitNoSep(folder, '/');
    SplitNoSep(name, '/');
    assert Split(folder + "/" + name, '/') == [folder, name];
  }

  /** `results.remove(value)`: every occurrence of `value` removed. */
  function RemoveAll(s: seq<string>, value: string): (r: seq<string>)
    ensures forall x :: x in r <==> x in s && x != value
    ensures Distinct(s) ==> Distinct(r)
  {
    FilterDistinctIf(s, (x: string) => x != value);
    Filter(s, (x: string) => x != value)
  }

  lemma FilterDistinctIf(s: seq<string>, p: string -> bool)
    ensures Distinct(s) ==> Distinct(Filter(s, p))
  {
    if Distinct(s) {
      FilterDistinct(s, p);
    }
  }

  /** The toggle of `MultiSelect`'s `onChange`: remove the option when present, append it otherwise. */
  function Toggle(results: seq<string>, value: string): (r: seq<string>)
    ensures value in r <==> value !in results
    ensures forall x :: x != value ==> (x in r <==> x in results)
    ensures Distinct(results) ==> Distinct(r)
  {
    if value in results then RemoveAll(results, value) else results + [value]
  }

  /**
   * Toggling the same option twice restores the selection as a set; when the option was
   * not selected it restores the list exactly, and when it was, it moves it to the end.
   */
  lemma ToggleTwice(results: seq<string>, value: string)
    ensures forall x :: x in Toggle(Toggle(results, value), value) <==> x in results
    ensures value !in results ==> Toggle(Toggle(results, value), value) == results
    ensures value in results ==> Toggle(Toggle(results, value), value) == RemoveAll(results, value) + [value]
  {
    if value !in results {
      var p := (x: string) => x != value;
      FilterConcat(results, [value], p);
      FilterAll(results, p);
      assert Filter([value], p) == [];
    }
  }

  /** The multi-select: its options, the index that means "no choice", and the chosen options. */
  class MultiSelect {
    const options: seq<string>
    const fallbackValueIndex: int
    var results: seq<string>

    constructor(options: seq<string>, fallbackValueIndex: int)
      ensures this.options == options && this.fallbackValueIndex == fallbackValueIndex && results == []
    {
      this.options := options;
      this.fallbackValueIndex := fallbackValueIndex;
      results := [];
    }

    /**
     * `onChange` with the selected index: the fallback index changes nothing; any other
     * toggles its option and reports the new selection to the change handler.
     */
    method OnChange(idx: nat) returns (reported: Option<seq<string>>)
      requires idx < |options|
      modifies this
      ensures idx == fallbackValueIndex ==> results == old(results) && reported.None?
      ensures idx != fallbackValueIndex ==> results == Toggle(old(results), options[idx]) && reported == Some(results)
      ensures Distinct(old(results)) ==> Distinct(results)
    {
      if idx == fallbackValueIndex {
        return None;
      }
      var value := options[idx];
      if value in results {
        results := RemoveAll(results, value);
      } else {
        results := results + [value];
      }
      reported := Some(results);
    }
  }

  /** The value a freshly mounted file select shows: `defaultValue={taskFiles[0]}`, or none without task files. */
  function FirstTaskFile(taskFiles: seq<string>): (f: string)
    ensures taskFiles != [] ==> f == taskFiles[0] && f in taskFiles
    ensures taskFiles == [] ==> f == ""
  {
    if taskFiles == [] then "" else taskFiles[0]
  }

  /** The quick-entry panel's state: the mode, the file select, the text box and the filters. */
  class QuickEntry {
    const taskFiles: seq<string>
    var action: string
    var fileSelectValue: string
    var input: string
    var filters: seq<string>
    const dateFilter: array<Option<string>>
    var priorityFilter: seq<string>

    /** The panel starts in append mode with the first task file selected (none without task files). */
    constructor(taskFiles: seq<string>)
      ensures this.taskFiles == taskFiles
      ensures action == "append" && input == "" && filters == [] && priorityFilter == []
      ensures fileSelectValue == if taskFiles == [] then "" else taskFiles[0]
      ensures fresh(dateFilter) && dateFilter.Length == 2 && dateFilter[..] == [None, None]
    {
      this.taskFiles := taskFiles;
      action := "append";
      fileSelectValue := FirstTaskFile(taskFiles);
      input := "";
      filters := [];
      priorityFilter := [];
      dateFilter := new Option<string>[2](_ => None);
    }

    /**
     * Choosing a mode switches to it and leaves an empty text box. The file select is drawn
     * only in append mode, so coming back to it mounts a new select showing the first task
     * file again.
     */
    method OnActionChange(value: string)
      modifies this
      ensures action == value && input == ""
      ensures value == "append" && old(action) != "append" ==> fileSelectValue == FirstTaskFile(taskFiles)
      ensures !(value == "append" && old(action) != "append") ==> fileSelectValue == old(fileSelectValue)
      ensures filters == old(filters) && priorityFilter == old(priorityFilter)
    {
      if value == "append" && action != "append" {
        fileSelectValue := FirstTaskFile(taskFiles);
      }
      action := value;
      input := "";
    }

    /** Typing in the text box: the keyword rewrite of what was typed. */
    method OnNewTaskInput(typed: string, c: Clock, sig: Sigils)
      modifies this
      ensures input == QuickEntryRewrite(typed, c, sig)
      ensures action == old(action) && fileSelectValue == old(fileSelectValue)
      ensures filters == old(filters) && priorityFilter == old(priorityFilter)
    {
      input := RewriteTyped(typed, c, sig);
    }

    /** Choosing a file in the file select. */
    method OnFileSelectChange(value: string)
      modifies this
      ensures fileSelectValue == value
      ensures action == old(action) && input == old(input)
      ensures filters == old(filters) && priorityFilter == old(priorityFilter)
    {
      fileSelectValue := value;
    }

    /** A change of one of the two date inputs of the date filter. */
    method OnDateInput(k: nat, value: string)
      requires k < dateFilter.Length
      modifies dateFilter
      ensures dateFilter[k] == Some(value)
      ensures forall j :: 0 <= j < dateFilter.Length && j != k ==> dateFilter[j] == old(dateFilter[j])
    {
      dateFilter[k] := Some(value);
    }

    /** The priority multi-select reports its selection. */
    method OnPriorityChange(res: seq<string>)
      modifies this
      ensures priorityFilter == res && input == old(input) && action == old(action)
      ensures fileSelectValue == old(fileSelectValue) && filters == old(filters)
    {
      priorityFilter := res;
    }

    /** The filter-type multi-select reports its selection. */
    method OnFiltersChange(res: seq<string>)
      modifies this
      ensures filters == res && input == old(input) && action == old(action)
      ensures fileSelectValue == old(fileSelectValue) && priorityFilter == old(priorityFilter)
    {
      filters := res;
    }

    /** The OK button: the command it issues, and an emptied text box after a task is created. */
    method OnOk() returns (cmd: Command)
      requires dateFilter.Length == 2
      modifies this
      ensures cmd == OkCommand(old(action), old(fileSelectValue), old(input), dateFilter[0], dateFilter[1], old(priorityFilter))
      ensures input == if cmd.CreateTask? then "" else old(input)
      ensures action == old(action) && fileSelectValue == old(fileSelectValue) && priorityFilter == old(priorityFilter)
      ensures filters == old(filters)
    {
      if action == "append" {
        var filePath := fileSelectValue;
        var newTask := input;
        if newTask == "" || filePath == "" {
          return NoCommand;
        }
        if Utf16Length(newTask) > 1 {
          cmd := CreateTask(filePath, newTask);
          input := "";
        } else {
          cmd := NoCommand;
        }
      } else {
        cmd := EnableFilter(dateFilter[0], dateFilter[1], priorityFilter);
      }
    }
  }
}

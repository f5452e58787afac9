/**
 * The input script of the timeline block: it checks the `pages` and `dailyNoteFormat`
 * parameters, then fills in every option the user left out with its default. The Dataview
 * queries it runs are parameters: `pagePaths` for the paths a `taskFiles` query names, and
 * `openTaskPaths` for the paths of every open task in the vault.
 */
module InputScript {
  import opened Wrappers
  import opened Seqs
  import opened Sorting
  import opened Strings

  // ---------------------------------------------------------------------------------------
  // The daily note format check
  // ---------------------------------------------------------------------------------------

  /**
   * A character of the class `[|\\YMDWwd.,-: \[\]]`: the bar, the backslash, the date
   * letters, the dot, a space, the brackets, and the range from `,` to `:` (which holds
   * `-`, `.`, `/` and the digits).
   */
  predicate AllowedFormatChar(c: char) {
    || c == '|' || c == '\\' || c == 'Y' || c == 'M' || c == 'D' || c == 'W' || c == 'w' || c == 'd'
    || c == '.' || (',' <= c <= ':') || c == ' ' || c == '[' || c == ']'
  }

  /** The number of matches of the global character class: one per allowed character. */
  function CountAllowed(s: string): (n: nat)
    ensures n <= |s|
  {
    if s == [] then 0 else (if AllowedFormatChar(s[0]) then 1 else 0) + CountAllowed(s[1..])
  }

  /** Every character matches exactly when the count reaches the length. */
  lemma {:induction false} CountAllowedAll(s: string)
    ensures CountAllowed(s) == |s| <==> forall i :: 0 <= i < |s| ==> AllowedFormatChar(s[i])
  {
    if s != [] {
      CountAllowedAll(s[1..]);
      assert forall i :: 1 <= i < |s| ==> s[i] == s[1..][i - 1];
    }
  }

  /** No character matches exactly when the count is zero. */
  lemma {:induction false} CountAllowedNone(s: string)
    ensures CountAllowed(s) == 0 <==> forall i :: 0 <= i < |s| ==> !AllowedFormatChar(s[i])
  {
    if s != [] {
      CountAllowedNone(s[1..]);
      assert forall i :: 1 <= i < |s| ==> s[i] == s[1..][i - 1];
    }
  }

  /**
   * What the format check does: an absent or empty format is not checked; a format with no
   * allowed character makes `match` return null, so reading its length throws.
   */
  datatype FormatVerdict = FormatAccepted | FormatRejected | FormatThrows

  function FormatCheck(dailyNoteFormat: Option<string>): (v: FormatVerdict)
    ensures dailyNoteFormat.None? || dailyNoteFormat == Some("") ==> v == FormatAccepted
  {
    if dailyNoteFormat.None? || dailyNoteFormat.value == "" then FormatAccepted
    else
      var matches := CountAllowed(dailyNoteFormat.value);
      if matches == 0 then FormatThrows
      else if matches != |dailyNoteFormat.value| then FormatRejected
      else FormatAccepted
  }

  /**
   * A non-empty format is accepted exactly when every character is allowed, and the format check
   * throws exactly when none is.
   */
  lemma FormatCheckSpec(fmt: string)
    requires fmt != ""
    ensures FormatCheck(Some(fmt)) == FormatAccepted <==> forall i :: 0 <= i < |fmt| ==> AllowedFormatChar(fmt[i])
    ensures FormatCheck(Some(fmt)) == FormatThrows <==> forall i :: 0 <= i < |fmt| ==> !AllowedFormatChar(fmt[i])
    ensures FormatCheck(Some(fmt)) == FormatRejected <==>
      (exists i :: 0 <= i < |fmt| && AllowedFormatChar(fmt[i])) && (exists i :: 0 <= i < |fmt| && !AllowedFormatChar(fmt[i]))
  {
    CountAllowedAll(fmt);
    CountAllowedNone(fmt);
  }

  /** The default daily note format. */
  const DefaultDailyNoteFormat: string := "YYYY-MM-DD"

  /** The default format would pass the same check. */
  lemma DefaultFormatAccepted()
    ensures FormatCheck(Some(DefaultDailyNoteFormat)) == FormatAccepted
  {
    CountAllowedAll(DefaultDailyNoteFormat);
  }

  // ---------------------------------------------------------------------------------------
  // The options
  // ---------------------------------------------------------------------------------------

  /** The parameters the script reads; `None` is a parameter left out (or null). */
  datatype Input = Input(
    pages: Option<string>,
    select: Option<string>,
    taskOrder: Option<seq<string>>,
    taskFiles: Option<string>,
    dailyNoteFolder: Option<string>,
    dailyNoteFormat: Option<string>,
    sort: Option<string>,
    dateFormat: Option<string>,
    options: Option<string>)

  /** A string parameter is truthy when present and not empty. */
  predicate Truthy(s: Option<string>) {
    s.Some? && s.value != ""
  }

  /** Where the tasks come from: every page, an evaluated Dataview expression, or the pages of a query. */
  datatype TaskSource = AllPages | Evaluated(expr: string) | PagesOf(query: string)

  function TaskSourceOf(pages: string): (src: TaskSource)
    ensures src == AllPages <==> pages == ""
    ensures src.Evaluated? <==> StartsWith(pages, "dv.pages") && pages != ""
    ensures src.Evaluated? ==> src.expr == pages
    ensures src.PagesOf? ==> src.query == pages && !StartsWith(pages, "dv.pages")
  {
    if pages == "" then AllPages else if StartsWith(pages, "dv.pages") then Evaluated(pages) else PagesOf(pages)
  }

  /** `[...new Set(paths)].sort()`: the paths once each, in ascending order. */
  function SortedPaths(paths: seq<string>): (r: seq<string>)
    ensures StrictlyAscending(r, StrLe)
    ensures forall p :: p in r <==> p in paths
    ensures Distinct(r)
  {
    var once := Dedup(paths);
    StrLeTotalOrder();
    SortStrict(once, StrLe);
    SortDistinct(once, StrLe);
    Sort(once, StrLe)
  }

  /** The default order of the task groups. */
  const DefaultTaskOrder: seq<string> :=
    ["overdue", "due", "scheduled", "start", "process", "unplanned", "done", "cancelled"]

  /** The options after defaulting. */
  datatype Config = Config(
    source: TaskSource,
    taskFiles: seq<string>,
    options: string,
    dailyNoteFolder: string,
    dailyNoteFormat: string,
    taskOrder: seq<string>,
    sort: string,
    dateFormat: string,
    select: string)

  /** How the script ends: stopped by one of its two checks, thrown out of, or configured. */
  datatype Outcome = MissingPages | InvalidFormat | FormatCrash | Configured(config: Config)

  /**
   * The script's checks and defaults, one option after the other. A missing `pages` stops
   * it; `""` is accepted and means every page. Then the daily note format is checked.
   * A present daily note folder gets a `/` appended even when it already ends with one.
   */
  method Configure(input: Input, pagePaths: string -> seq<string>, openTaskPaths: seq<string>) returns (out: Outcome)
    ensures out == MissingPages <==> input.pages.None?
    ensures out == FormatCrash <==> input.pages.Some? && FormatCheck(input.dailyNoteFormat) == FormatThrows
    ensures out == InvalidFormat <==> input.pages.Some? && FormatCheck(input.dailyNoteFormat) == FormatRejected
    ensures out.Configured? ==> out.config.source == TaskSourceOf(input.pages.value)
    ensures out.Configured? ==> StrictlyAscending(out.config.taskFiles, StrLe)
    ensures out.Configured? && Truthy(input.taskFiles) ==>
      forall p :: p in out.config.taskFiles <==> p in pagePaths(input.taskFiles.value)
    ensures out.Configured? && !Truthy(input.taskFiles) ==>
      forall p :: p in out.config.taskFiles <==> p in openTaskPaths
    ensures out.Configured? ==> out.config.options == (if Truthy(input.options) then input.options.value else "")
    ensures out.Configured? && !Truthy(input.dailyNoteFolder) ==> out.config.dailyNoteFolder == ""
    ensures out.Configured? && Truthy(input.dailyNoteFolder) ==>
      out.config.dailyNoteFolder == input.dailyNoteFolder.value + "/"
    ensures out.Configured? ==> FormatCheck(Some(out.config.dailyNoteFormat)) == FormatAccepted
    ensures out.Configured? && Truthy(input.dailyNoteFormat) ==> out.config.dailyNoteFormat == input.dailyNoteFormat.value
    ensures out.Configured? && !Truthy(input.dailyNoteFormat) ==> out.config.dailyNoteFormat == DefaultDailyNoteFormat
    ensures out.Configured? ==> out.config.taskOrder == (if input.taskOrder.Some? then input.taskOrder.value else DefaultTaskOrder)
    ensures out.Configured? ==> out.config.sort == (if Truthy(input.sort) then input.sort.value else "t=>t.order")
    ensures out.Configured? ==> out.config.dateFormat == (if Truthy(input.dateFormat) then input.dateFormat.value else "ddd, MMM D")
    ensures out.Configured? ==> out.config.select == (if Truthy(input.select) then input.select.value else "dailyNote")
  {
    if input.pages.None? {
      return MissingPages;
    }
    var verdict := FormatCheck(input.dailyNoteFormat);
    if verdict == FormatThrows {
      return FormatCrash;
    } else if verdict == FormatRejected {
      return InvalidFormat;
    }
    var pages := input.pages.value;
    var source := TaskSourceOf(pages);

    var taskFiles: seq<string>;
    if !Truthy(input.taskFiles) {
      taskFiles := SortedPaths(openTaskPaths);
    } else {
      taskFiles := SortedPaths(pagePaths(input.taskFiles.value));
    }
    var options := input.options.GetOr("");
    if !Truthy(input.options) {
      options := "";
    }
    var dailyNoteFolder := input.dailyNoteFolder.GetOr("");
    if !Truthy(input.dailyNoteFolder) {
      dailyNoteFolder := "";
    } else {
      dailyNoteFolder := dailyNoteFolder + "/";
    }
    var dailyNoteFormat := input.dailyNoteFormat.GetOr("");
    if !Truthy(input.dailyNoteFormat) {
      dailyNoteFormat := DefaultDailyNoteFormat;
      DefaultFormatAccepted();
    }
    var taskOrder := input.taskOrder.GetOr([]);
    if input.taskOrder.None? {
      taskOrder := DefaultTaskOrder;
    }
    var sort := input.sort.GetOr("");
    if !Truthy(input.sort) {
      sort := "t=>t.order";
    }
    var dateFormat := input.dateFormat.GetOr("");
    if !Truthy(input.dateFormat) {
      dateFormat := "ddd, MMM D";
    }
    var select := input.select.GetOr("");
    if !Truthy(input.select) {
      select := "dailyNote";
    }
    out := Configured(Config(source, taskFiles, options, dailyNoteFolder, dailyNoteFormat, taskOrder, sort, dateFormat, select));
  }
}

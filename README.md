# Tasks timeline — a Dafny model

This project models the core of the Obsidian "tasks timeline" plugin and proves properties of it.

The core has these parts:

- **The task adapter.** It picks the vault's notes through path and tag filters. It walks each note's list items, finds each item's enclosing section, and turns every task line into a task record.
- **The timeline view.** It gathers every date of every task plus today, sorts them, and spans the years from the first to the last. It counts tasks per status, derives style classes and the quick-entry file list from the options, and renders one year view per year.
- **The year view.** It lists the year's days in order, adding the entry date, and renders one day view per day.
- **The date view.** It applies the `forward` option per day. It also models the quick-entry panel: the keyword rewrite of a new task's text, the OK button, the file-select captions, and the multi-select toggle.
- **The bridge.** It composes the filter the quick entry enables, and it builds and inserts the line of a new task.
- **The task item view.** It derives the display text, the link escaping, and the tag, priority, recurrence and file badges.
- **The input script.** It checks the `pages` and `dailyNoteFormat` parameters and fills in option defaults.

## Modelling choices

**Module layout.** There is one module per source file:

| Module | Models | File |
|---|---|---|
| `Adapter` | `src/taskadapter.ts` | `adapter.dfy` |
| `Timeline` | `src/components/timelineview.tsx` | `timeline.dfy` |
| `YearViews` | `src/components/yearview.tsx` | `yearview.dfy` |
| `DateViews` | `src/components/dateview.tsx` | `dateview.dfy` |
| `Bridge` | `src/obsidianbridge.tsx` | `bridge.dfy` |
| `TaskItems` | `src/components/taskitemview.tsx` | `taskitem.dfy` |
| `InputScript` | `_input.js` | `input.dfy` |

Shared modules:

- `Wrappers`, `Seqs` and `Sorting` (`base.dfy`) cover options, filters, deduplication, and insertion sort under a total order.
- `Strings` (`strings.dfy`) covers JavaScript's `trim`, `split`, `join`, `indexOf`, `includes`, and `replace` with a string pattern.
- `Dates` (`dates.dfy`) holds calendar dates and ISO weekdays.
- `Tasks` (`tasks.dfy`) holds the task record, the options, and the loop that gathers a task list's dates.

**State kept imperative.** Where the source changes state, the model keeps that shape:

- The adapter's `tasksList` and the view and bridge state are class fields.
- The two date inputs are an array.
- The date-gathering `forEach` loops, the running maximum of `findParent` and the style pushes are methods with loops or step-by-step updates.
- `lines.splice` and the input script's reassignments are methods too.

Each such method is proved against a function or a property stated in its `ensures`.

**Helpers outside this model are parameters**, with stated assumptions:

- the task and block-link regular expressions, and the link constructors (the `Env` record);
- `filterDate`, `filterYear` and `filterDateRange` (the function parameters `onDate`, `inYear` and `inRange`);
- the status names (`StatusNames`);
- `getFileTitle`;
- moment's clock and formatting (`Clock`, and today's daily-note name);
- the two Dataview queries of the input script.

**Dates.** A date is a `(year, month, day)` value ordered chronologically. The source sorts `YYYY-MM-DD` strings, and for four-digit years that order is the same. The quick-entry date arithmetic works on day numbers.

**The line parser parses no dates, priority or recurrence.** The adapter's `fromLine` leaves every date undefined and the priority and recurrence empty, and its `visual` text keeps every annotation (taskadapter.ts:226-264). The model does the same (`Adapter.ParseLineFields`).

**Text is a sequence of characters.** A string is a sequence of Unicode characters (code points), while JavaScript counts UTF-16 code units, two for a character outside the Basic Multilingual Plane such as 📅 or 🔁. Where the source's behaviour depends on that count the model states it in code units: `length` is `Strings.Utf16Length`, and the regular expression's `\W` matches one code unit (`Strings.NonWordUnit`). The offsets of the host's cache are taken as character offsets (see `Adapter.SliceContent` under "## Left out").

**The file-select glyphs are the characters the source holds.** The captions at dateview.tsx:212,215-216 are stored in the source file double-encoded: the ellipsis is U+00E2 U+20AC U+00A6, and the folder and file glyphs are U+00F0 U+0178 U+201C followed by U+201A and U+201E. These are the UTF-8 bytes of …, 📂 and 📄 read back as Windows-1252. `DateViews.Ellipsis`, `DateViews.FolderGlyph` and `DateViews.FileGlyph` hold those characters as written, so a caption starts with those characters rather than with the intended glyphs.

## Model

| member | source | states |
|---|---|---|
| Adapter.IsParent | obsid-tasks-timeline/src/taskadapter.ts:23-28 | `parent` is a parent of `path` iff `path` equals it or starts with it followed by `/` |
| Adapter.IsParentIf | obsid-tasks-timeline/src/taskadapter.ts:23-28 | a path equal to or below `parent` is no shorter and matches it segment by segment |
| Adapter.IsParentOnlyIf | obsid-tasks-timeline/src/taskadapter.ts:23-28 | a segment-by-segment match means equal, or a prefix up to a `/` |
| Adapter.PathsFilter | obsid-tasks-timeline/src/taskadapter.ts:22-33 | a file is kept iff no filter entry is a parent of its path; it is the exact complement of the include filter |
| Adapter.IncludePathsFilter | obsid-tasks-timeline/src/taskadapter.ts:35-46 | a file is kept iff some filter entry is a parent of its path |
| Adapter.FileIncludeTagsFilter | obsid-tasks-timeline/src/taskadapter.ts:48-54 | a file without tags fails it; an empty list keeps nothing |
| Adapter.FileExcludeTagsFilter | obsid-tasks-timeline/src/taskadapter.ts:56-62 | a file without tags passes it; it is the complement of the include-tags filter |
| Adapter.FilterChain | obsid-tasks-timeline/src/taskadapter.ts:67-75 | four successive filters equal one filter by the conjunction |
| Adapter.FilterFiles | obsid-tasks-timeline/src/taskadapter.ts:64-75 | the selected files are exactly the files, in vault order, that pass every filter whose list is non-empty |
| Adapter.FirstSectionAt | obsid-tasks-timeline/src/taskadapter.ts:113-116 | the first section starting at the parent's line, or none when there is none |
| Adapter.LatestHeading | obsid-tasks-timeline/src/taskadapter.ts:118-126 | the first heading with the greatest start line strictly before the item's line, or none when no heading precedes it |
| Adapter.ParentOf | obsid-tasks-timeline/src/taskadapter.ts:111-129 | no sections gives no parent; a child item gets a section at its parent's line; a root item gets the latest heading above it |
| Adapter.FindParent | obsid-tasks-timeline/src/taskadapter.ts:111-129 | the two loops, with the running maximum `p`, compute `ParentOf` |
| Adapter.FindSectionAt | obsid-tasks-timeline/src/taskadapter.ts:113-116 | the loop for a child item returns the first section starting at the parent's line, or none |
| Adapter.FindLatestHeading | obsid-tasks-timeline/src/taskadapter.ts:118-126 | the loop for a root item, with the running maximum `p`, returns the first heading with the greatest start line above the item |
| Adapter.TagEntry | obsid-tasks-timeline/src/taskadapter.ts:214-218 | a front-matter `tag` gets `#` prepended unless it has one |
| Adapter.TagsEntry | obsid-tasks-timeline/src/taskadapter.ts:222 | an entry of `tags` starting with `#` contributes `""`; any other contributes `#` and the entry |
| Adapter.TagsEntries | obsid-tasks-timeline/src/taskadapter.ts:220-223 | one contribution per entry, in order; `None` exactly when some entry is not a string, on which `startsWith` throws |
| Adapter.FrontMatterTags | obsid-tasks-timeline/src/taskadapter.ts:213-224 | the `tag` and `tags` contributions; `None` (a thrown error) exactly when `tags` is a mapping or a list with an entry that is not a string |
| Adapter.Description | obsid-tasks-timeline/src/taskadapter.ts:194-211 | the trimmed body, with a block link at its end cut off and the rest trimmed again; the result is trimmed |
| Adapter.ReplaceSpaceNonEmpty | obsid-tasks-timeline/src/taskadapter.ts:249 | for trimmed text, removing the first space leaves something iff the text is non-empty |
| Adapter.ParseLine | obsid-tasks-timeline/src/taskadapter.ts:176-266 | no task iff the task expression does not match; a TypeError iff it matches and the front matter's `tags` is a mapping or a list with a non-string entry; otherwise the raw line, path and position are kept |
| Adapter.ParseLineFields | obsid-tasks-timeline/src/taskadapter.ts:226-264 | every field of a parsed task (listed after this table) |
| Adapter.PushTagsEntries | obsid-tasks-timeline/src/taskadapter.ts:222 | the pushes append the contribution of every entry in order, or throw at an entry that is not a string |
| Adapter.PushTag | obsid-tasks-timeline/src/taskadapter.ts:214-218 | the push of the front matter's `tag` appends it with `#` in front unless it starts with one, and only when it is a non-empty string |
| Adapter.StripBlockLink | obsid-tasks-timeline/src/taskadapter.ts:194-211 | the step-by-step trim and block-link removal compute `Description` |
| Adapter.PushFrontMatterTags | obsid-tasks-timeline/src/taskadapter.ts:213-224 | the pushes append `FrontMatterTags` to the line's tags, or throw exactly when it does |
| Adapter.FromLine | obsid-tasks-timeline/src/taskadapter.ts:176-266 | `fromLine` step by step equals `ParseLine` |
| Adapter.SliceContent | obsid-tasks-timeline/src/taskadapter.ts:141-143 | the text between the span's start and end offsets; empty when the end is not after the start |
| Adapter.OutLinks | obsid-tasks-timeline/src/taskadapter.ts:131-134 | one link per cached link on the item's line, built by `withLinkCache`; none without a link cache |
| Adapter.LineTags | obsid-tasks-timeline/src/taskadapter.ts:136-139 | the tags of the tag cache on the item's line; none without a tag cache |
| Adapter.ItemOutcome | obsid-tasks-timeline/src/taskadapter.ts:107-155 | a non-task item gives no task; a parsed task carries the file's path and the item's position |
| Adapter.Appended | obsid-tasks-timeline/src/taskadapter.ts:156-158 | exactly one task is pushed iff `fromLine` returned one |
| Adapter.ItemsTasks | obsid-tasks-timeline/src/taskadapter.ts:82-84 | at most one task per item, each with the file's path |
| Adapter.FileTasks | obsid-tasks-timeline/src/taskadapter.ts:80-85 | no cache or no list items gives no task; every task carries the file's path |
| Adapter.ObsidianTaskAdapter.constructor | obsid-tasks-timeline/src/taskadapter.ts:7-16 | the list starts empty |
| Adapter.ObsidianTaskAdapter.GetTaskList | obsid-tasks-timeline/src/taskadapter.ts:18-20 | a copy of the list, with no state change |
| Adapter.ObsidianTaskAdapter.GenerateTasksList | obsid-tasks-timeline/src/taskadapter.ts:64-76 | the list is emptied and the files to read are the filtered ones |
| Adapter.ObsidianTaskAdapter.FromItemCache | obsid-tasks-timeline/src/taskadapter.ts:107-159 | appends exactly the item's task when there is one, keeps earlier entries, and reports a thrown TypeError |
| Adapter.ObsidianTaskAdapter.ReadFile | obsid-tasks-timeline/src/taskadapter.ts:79-85 | the file's tasks are appended after the existing ones |
| Tasks.Statuses | obsid-tasks-timeline/src/components/yearview.tsx:33 | the statuses of the tasks, once each, a status before another exactly when its first task comes first |
| Seqs.DedupOrder | obsid-tasks-timeline/src/components/yearview.tsx:33 | `[...new Set(xs)]` keeps the order of first occurrence: an earlier element first occurs earlier in `xs` |
| Tasks.TaskDatesMembers | obsid-tasks-timeline/src/components/timelineview.tsx:56-63 | a task's dates are its due, scheduled, created, start and completion dates and its `dates` values |
| Tasks.CollectTaskDates | obsid-tasks-timeline/src/components/timelineview.tsx:53-64 | the loop gathers every date of every task exactly once |
| Tasks.AddAll | obsid-tasks-timeline/src/components/timelineview.tsx:56-63 | adding to the insertion-ordered set keeps it duplicate-free and adds exactly the given dates |
| Dates.DateLeTotalOrder | obsid-tasks-timeline/src/components/timelineview.tsx:69 | the date order sorted by is a total order |
| Dates.IsoWeekdayShift | obsid-tasks-timeline/src/components/dateview.tsx:171-174 | moving `k` days moves the ISO weekday `k` places round the week |
| Timeline.InvolvedDates | obsid-tasks-timeline/src/components/timelineview.tsx:53-69 | the sorted days are every task date and today, once each, in strictly ascending order, and never empty |
| Timeline.Years | obsid-tasks-timeline/src/components/timelineview.tsx:70-72 | consecutive years from the first day's to the last day's, covering every day |
| Timeline.EntryOnDate | obsid-tasks-timeline/src/components/timelineview.tsx:160-161 | `top` gives the first day, `bottom` the last, anything else today |
| Timeline.EntryOnDateBounds | obsid-tasks-timeline/src/components/timelineview.tsx:160-161 | on sorted days, `top` is the earliest day and `bottom` the latest |
| Timeline.InvolvedBounds | obsid-tasks-timeline/src/components/timelineview.tsx:69-72 | the first and last sorted days and the entry date are involved days; `top` is the earliest involved day and `bottom` the latest |
| Timeline.CountTasks | obsid-tasks-timeline/src/components/timelineview.tsx:77-82 | each counter counts its status; the five counters sum to the list's length |
| Timeline.FilterCount | obsid-tasks-timeline/src/components/timelineview.tsx:77-80 | `filter(p).length` counts the tasks satisfying `p` |
| Timeline.CountTasksTodo | obsid-tasks-timeline/src/components/timelineview.tsx:82 | with distinct status names, "todo" counts exactly the tasks of no counted status, so it is never negative |
| Timeline.CountPartition | obsid-tasks-timeline/src/components/timelineview.tsx:77-82 | the four status counts and the rest partition the list |
| Timeline.Styles | obsid-tasks-timeline/src/components/timelineview.tsx:84-102 | the styles, once each, are the general styles of options that are off, plus either "noInfo" or the detail styles |
| Timeline.StyleOfOption | obsid-tasks-timeline/src/components/timelineview.tsx:84-102 | each style names one option that is off; "noInfo" replaces the six detail styles exactly when all six would apply |
| Timeline.DetailStyles | obsid-tasks-timeline/src/components/timelineview.tsx:95-102 | the else branch pushes one style per detail option that is off, keeping the list duplicate-free |
| Timeline.PushIf | obsid-tasks-timeline/src/components/timelineview.tsx:85-101 | a conditional push of a name not yet present keeps the styles duplicate-free and adds the name exactly when its option is off |
| Timeline.GeneralStyles | obsid-tasks-timeline/src/components/timelineview.tsx:84-87 | the counters, quick-entry and year styles, once each, exactly for the options that are off |
| Timeline.BadgeStyles | obsid-tasks-timeline/src/components/timelineview.tsx:96-98 | the file, priority and recurrence styles are added exactly for the options that are off |
| Timeline.TextStyles | obsid-tasks-timeline/src/components/timelineview.tsx:99-101 | the relative, header and tag styles are added exactly for the options that are off |
| Timeline.DailyNoteFolder | obsid-tasks-timeline/src/components/timelineview.tsx:108-111 | empty iff given empty; otherwise the folder ending in `/`, unchanged when it already ends in one |
| Timeline.DailyNoteFolderIdempotent | obsid-tasks-timeline/src/components/timelineview.tsx:108-111 | normalising the folder twice is normalising it once |
| Timeline.QuickEntryFiles | obsid-tasks-timeline/src/components/timelineview.tsx:104-113 | once each: the task files in order of first occurrence, then the inbox when set and not a task file, then today's daily note last when a format is set and it is new; nothing else |
| Timeline.CounterFilterClass | obsid-tasks-timeline/src/components/timelineview.tsx:116-118 | empty iff no filter; otherwise the filter followed by the counter behaviour, whose space-separated tokens are the filter's and then the behaviour's |
| Timeline.ClassName | obsid-tasks-timeline/src/components/timelineview.tsx:119-121 | starts with `taskido `; ends with ` todayFocus` exactly when today focus is on; its tokens are `taskido`, the styles' tokens, the counter filter's tokens, and `todayFocus` or an empty token |
| Timeline.RenderClassName | obsid-tasks-timeline/src/components/timelineview.tsx:67-121 | the class starts with `taskido `, and its non-empty tokens are exactly `taskido`, the styles of the options that are off, the words of the active filter and of the counter behaviour when a filter is active, and `todayFocus` when it is on |
| Timeline.RenderClassTokens | obsid-tasks-timeline/src/components/timelineview.tsx:115-121 | the class built from the deduplicated styles, the counter filter and today focus has exactly those non-empty tokens |
| Timeline.NextFilter | obsid-tasks-timeline/src/components/timelineview.tsx:34-44 | a click sets the clicked filter, or clears it when it was active |
| Timeline.NextFilterTwice | obsid-tasks-timeline/src/components/timelineview.tsx:34-44 | two clicks restore an active filter and clear any other |
| Timeline.YearTasks | obsid-tasks-timeline/src/components/timelineview.tsx:159 | a year view receives exactly the tasks `filterYear` puts in its year |
| Timeline.RenderYears | obsid-tasks-timeline/src/components/timelineview.tsx:156-166 | one view per year, each the year view of that year's tasks: the header, the year's task dates plus the entry date when it falls in the year, strictly ascending, and each day's view over its own tasks |
| Timeline.TimelineView.constructor | obsid-tasks-timeline/src/components/timelineview.tsx:22-32 | the filter and today focus start from the options' defaults |
| Timeline.TimelineView.HandleCounterFilterClick | obsid-tasks-timeline/src/components/timelineview.tsx:34-44 | the filter becomes `NextFilter`; today focus is unchanged |
| Timeline.TimelineView.HandleTodayFocus | obsid-tasks-timeline/src/components/timelineview.tsx:46-50 | today focus is negated; the filter is unchanged |
| Timeline.TimelineView.Render | obsid-tasks-timeline/src/components/timelineview.tsx:52-171 | the render outputs (listed after this table) |
| YearViews.YearHeaderOf | obsid-tasks-timeline/src/components/yearview.tsx:32-33 | a header iff the year has tasks, with the distinct statuses; `current` iff the year is today's (lines 59-61) |
| YearViews.DayTasks | obsid-tasks-timeline/src/components/yearview.tsx:38 | a day's tasks are those `filterDate` puts on it |
| YearViews.YearView | obsid-tasks-timeline/src/components/yearview.tsx:15-45 | the days listed, with each view (listed after this table) |
| DateViews.ForwardFilter | obsid-tasks-timeline/src/components/dateview.tsx:23-25 | with `forward` on a day other than today, exactly the non-overdue tasks; otherwise all |
| DateViews.DateView | obsid-tasks-timeline/src/components/dateview.tsx:19-46 | the day view (listed after this table) |
| DateViews.DigitRun | obsid-tasks-timeline/src/components/dateview.tsx:158 | the maximal run of digits at a position |
| DateViews.FirstUnit | obsid-tasks-timeline/src/components/dateview.tsx:158 | the first unit alternative, in source order, that occurs with a space at a position |
| DateViews.FutureDateAt | obsid-tasks-timeline/src/components/dateview.tsx:158 | a match occurs at its index, starts with `in`, and ends with a listed unit and a space; each `\W` is one non-word code unit |
| DateViews.Leftmost | obsid-tasks-timeline/src/components/dateview.tsx:158 | the result is the match at the least position with one, or none when no position matches |
| DateViews.WeekdayAt | obsid-tasks-timeline/src/components/dateview.tsx:167 | the first weekday name, in source order, that occurs with a space at a position |
| DateViews.WeekdayMatch | obsid-tasks-timeline/src/components/dateview.tsx:167 | a match names an ISO weekday 1-7 whose name and a space occur in the text |
| DateViews.NextWeekday | obsid-tasks-timeline/src/components/dateview.tsx:169-175 | the target day is 1 to 7 days after today and has the wanted weekday; it is in the same week iff today's weekday is earlier |
| DateViews.OverwritesNoneApply | obsid-tasks-timeline/src/components/dateview.tsx:143-176 | when no rule applies, the input keeps the text as typed |
| DateViews.OverwritesLastWins | obsid-tasks-timeline/src/components/dateview.tsx:143-176 | as every rule reads the text as typed, the input ends with the result of the last rule that applies |
| DateViews.RuleResults | obsid-tasks-timeline/src/components/dateview.tsx:145-176 | the results of the first `n` rules, each computed from the text as typed |
| DateViews.AfterRulesOverwrites | obsid-tasks-timeline/src/components/dateview.tsx:143-176 | running the first `n` rules is overwriting the input with their results in source order |
| DateViews.QuickEntryRewriteSpec | obsid-tasks-timeline/src/components/dateview.tsx:140-176 | the rewrite keeps the typed text when no rule applies; otherwise it gives the last applicable rule's result |
| DateViews.RewriteTyped | obsid-tasks-timeline/src/components/dateview.tsx:143-176 | the eleven overwrites of `input.value` compute `QuickEntryRewrite` |
| DateViews.KeywordRule | obsid-tasks-timeline/src/components/dateview.tsx:145-155 | when the keyword and a space occur, the value becomes the typed text with its first keyword replaced; otherwise it is unchanged |
| DateViews.FutureDateRule | obsid-tasks-timeline/src/components/dateview.tsx:158-164 | the "in N units" overwrite |
| DateViews.WeekdayRule | obsid-tasks-timeline/src/components/dateview.tsx:167-176 | the weekday overwrite |
| DateViews.OkCommand | obsid-tasks-timeline/src/components/dateview.tsx:268-286 | create a task iff in append mode with a file and a text whose UTF-16 `length` exceeds one (two characters, or one outside the Basic Multilingual Plane); forward the filters iff not in append mode |
| Strings.Utf16Length | obsid-tasks-timeline/src/components/dateview.tsx:276 | `length` counts one unit per character of the Basic Multilingual Plane and two for any other, so it equals the character count iff every character is in that plane |
| Strings.Utf16LengthAboveOne | obsid-tasks-timeline/src/components/dateview.tsx:276 | the length exceeds one iff there are two characters or one outside the Basic Multilingual Plane |
| DateViews.FileOptionLabel | obsid-tasks-timeline/src/components/dateview.tsx:211-216 | ends with the file glyph and title; starts with the ellipsis or the folder glyph when the parent segments are present; the glyphs are the characters the source file holds |
| DateViews.FileOptionLabelRoot | obsid-tasks-timeline/src/components/dateview.tsx:211-216 | a note outside any folder is labelled by its title alone |
| DateViews.FileOptionLabelOneFolder | obsid-tasks-timeline/src/components/dateview.tsx:211-216 | a note in a top-level folder is labelled by the folder and its title, without an ellipsis |
| DateViews.RemoveAll | obsid-tasks-timeline/src/components/dateview.tsx:332 | removes the value and keeps every other member |
| DateViews.Toggle | obsid-tasks-timeline/src/components/dateview.tsx:331-333 | the value is selected afterwards iff it was not before; other members are untouched; no duplicates are introduced |
| DateViews.ToggleTwice | obsid-tasks-timeline/src/components/dateview.tsx:331-333 | two toggles restore the selection as a set; the order is restored only when the value was absent; otherwise it moves to the end |
| DateViews.MultiSelect.constructor | obsid-tasks-timeline/src/components/dateview.tsx:312-318 | the selection starts empty |
| DateViews.MultiSelect.OnChange | obsid-tasks-timeline/src/components/dateview.tsx:327-336 | the fallback index changes and reports nothing; any other index toggles its option and reports the new selection |
| DateViews.QuickEntry.constructor | obsid-tasks-timeline/src/components/dateview.tsx:102-124 | append mode, first task file selected, empty text, no filters, both date bounds unset |
| DateViews.FirstTaskFile | obsid-tasks-timeline/src/components/dateview.tsx:205 | a new file select shows the first task file, or nothing without task files |
| DateViews.QuickEntry.OnActionChange | obsid-tasks-timeline/src/components/dateview.tsx:195-224 | the mode changes and the text box is emptied; coming back to append mode mounts a new file select showing the first task file, and the selection is otherwise kept |
| DateViews.QuickEntry.OnNewTaskInput | obsid-tasks-timeline/src/components/dateview.tsx:140-179 | the text box holds the rewrite of what was typed |
| DateViews.QuickEntry.OnFileSelectChange | obsid-tasks-timeline/src/components/dateview.tsx:127-133 | the selected file changes; the mode, the text box and both filters are unchanged |
| DateViews.QuickEntry.OnDateInput | obsid-tasks-timeline/src/components/dateview.tsx:248-249 | one date bound is set; the other is unchanged |
| DateViews.QuickEntry.OnPriorityChange | obsid-tasks-timeline/src/components/dateview.tsx:255 | the priority filter becomes the reported selection; the mode, the text box, the selected file and the filter types are unchanged |
| DateViews.QuickEntry.OnFiltersChange | obsid-tasks-timeline/src/components/dateview.tsx:232 | the filter types become the reported selection; the mode, the text box, the selected file and the priority filter are unchanged, so a priority chosen before the priority widget was removed is still sent |
| DateViews.QuickEntry.OnOk | obsid-tasks-timeline/src/components/dateview.tsx:268-286 | the command issued is `OkCommand` of the panel's state; the text box is emptied exactly when a task is created; the mode, the selected file and both filters are unchanged |
| Bridge.FilterView | obsid-tasks-timeline/src/obsidianbridge.tsx:70-84 | the shown tasks are the full list filtered by the date range (when both bounds are set) and the priorities (when any) |
| Bridge.FilterViewSteps | obsid-tasks-timeline/src/obsidianbridge.tsx:74-80 | the two optional filter steps together equal one filter by their conjunction |
| Bridge.FilterViewIdempotent | obsid-tasks-timeline/src/obsidianbridge.tsx:70-84 | filtering the filtered list again changes nothing |
| Bridge.TaskLine | obsid-tasks-timeline/src/obsidianbridge.tsx:87 | an open-task line whose text after the checkbox is the appended text |
| Bridge.NewFileContent | obsid-tasks-timeline/src/obsidianbridge.tsx:91 | a new note splits back into exactly the section line and the task line |
| Bridge.InsertTaskLine | obsid-tasks-timeline/src/obsidianbridge.tsx:102-103 | the task line goes right after the first line equal to the section, or first when there is none; removing it gives the lines back |
| Bridge.AppendToContent | obsid-tasks-timeline/src/obsidianbridge.tsx:101-104 | the written note has one more line, the task line after the section, and otherwise the original lines |
| Bridge.ObsidianBridge.constructor | obsid-tasks-timeline/src/obsidianbridge.tsx:41-44 | the shown list starts as the model's list |
| Bridge.ObsidianBridge.OnUpdateTasks | obsid-tasks-timeline/src/obsidianbridge.tsx:64-68 | the shown list is replaced by the model's new list |
| Bridge.ObsidianBridge.HandleFilterEnable | obsid-tasks-timeline/src/obsidianbridge.tsx:70-84 | the shown list becomes `FilterView` of the full list, whatever was shown before |
| Bridge.ObsidianBridge.HandleCreateNewTask | obsid-tasks-timeline/src/obsidianbridge.tsx:86-113 | a confirmed missing note is created with the section and task lines; otherwise a failed read is reported, or the note is written back with one more line, the task line after the section, and the other lines as they were, in order; after a successful create or write the shown list is the model's whole list again, and otherwise it is unchanged |
| TaskItems.Display | obsid-tasks-timeline/src/components/taskitemview.tsx:37 | the description when there is one, else the raw line |
| TaskItems.EscapedLink | obsid-tasks-timeline/src/components/taskitemview.tsx:40 | only the first apostrophe is escaped; a path without one is unchanged |
| TaskItems.EscapedLinkKeepsLater | obsid-tasks-timeline/src/components/taskitemview.tsx:40 | a path with two apostrophes keeps one unescaped |
| TaskItems.EscapedLinkFirst | obsid-tasks-timeline/src/components/taskitemview.tsx:40 | the apostrophe replaced by `&apos;` is the first one of the path |
| TaskItems.FirstApostrophe | obsid-tasks-timeline/src/components/taskitemview.tsx:40 | `indexOf` finds an apostrophe at or before any given one, with none before it |
| TaskItems.TaskColor | obsid-tasks-timeline/src/components/taskitemview.tsx:42-66 | the front matter's non-empty `color` string, else the muted text colour |
| TaskItems.PreChecked | obsid-tasks-timeline/src/components/taskitemview.tsx:152 | the checkbox starts checked iff the marker is not a space |
| TaskItems.PriorityLabel | obsid-tasks-timeline/src/components/taskitemview.tsx:102-106 | a badge iff there is a priority, always "<priority> Priority", so "No Priority" never shows |
| TaskItems.RecurrenceLabel | obsid-tasks-timeline/src/components/taskitemview.tsx:97-100 | a badge iff there is a recurrence; the first occurrence of the symbol is removed, and without one the recurrence is shown as is |
| TaskItems.RecurrenceLabelLeadingSymbol | obsid-tasks-timeline/src/components/taskitemview.tsx:97-100 | a recurrence starting with the symbol is shown with that symbol dropped |
| TaskItems.FileBadgeHeader | obsid-tasks-timeline/src/components/taskitemview.tsx:107-224 | the section heading after a separator, or nothing without one |
| TaskItems.VisibleTags | obsid-tasks-timeline/src/components/taskitemview.tsx:108 | the task's tags, once each, except the hidden ones |
| TaskItems.VisibleTagsIdempotent | obsid-tasks-timeline/src/components/taskitemview.tsx:108 | hiding the hidden tags again changes nothing |
| TaskItems.TagLabel | obsid-tasks-timeline/src/components/taskitemview.tsx:176 | drops a leading `#`; a tag with none is unchanged; exactly one `#` goes when there is any |
| TaskItems.TagBadgeStyle | obsid-tasks-timeline/src/components/taskitemview.tsx:177-191 | the palette colour with its 10%-alpha background iff the palette has a non-empty colour for the tag, else muted |
| InputScript.CountAllowed | obsid-tasks-timeline/_input.js:6 | the number of matches is at most the length |
| InputScript.CountAllowedAll | obsid-tasks-timeline/_input.js:6 | the count reaches the length iff every character is allowed |
| InputScript.CountAllowedNone | obsid-tasks-timeline/_input.js:6 | the count is zero iff no character is allowed |
| InputScript.FormatCheck | obsid-tasks-timeline/_input.js:6 | an absent or empty format is not checked |
| InputScript.FormatCheckSpec | obsid-tasks-timeline/_input.js:6 | a non-empty format is accepted iff every character is allowed; it throws iff none is; it is rejected iff some are and some are not |
| InputScript.DefaultFormatAccepted | obsid-tasks-timeline/_input.js:13 | the default format passes the same check |
| InputScript.TaskSourceOf | obsid-tasks-timeline/_input.js:9 | `""` means every page; a `dv.pages` expression is evaluated; anything else is a page query |
| InputScript.SortedPaths | obsid-tasks-timeline/_input.js:10 | the paths once each, strictly ascending |
| InputScript.Configure | obsid-tasks-timeline/_input.js:5-17 | the script's outcome and each option's value (listed after this table) |

**Adapter.ParseLineFields** states every field of a parsed task other than `text`, `path` and `position`, which `Adapter.ParseLine` states:

- `visual` is the description;
- the symbol is the list marker, and `status` and `statusMarker` are the status character;
- `completed` iff the status is `x`, and `fullyCompleted` iff it is not a space;
- `checked` iff there is visible text;
- the tags are those given plus those of the front matter, once each;
- the line, list and line count come from the position;
- the link, section and header are the parent link;
- the out-links are the ones given;
- the front matter is the note's, or an empty one when the note has none (`fontMatter: frontMatter || {}`, which the item view reads under the same misspelled key);
- no date, no priority and no recurrence, order 0, and the `isReal`, `annotated`, `isTasksTask` and `dailyNote` flags as the source sets them.

**Timeline.TimelineView.Render** states:

- the counters;
- consecutive years that contain today's year and every task date's year, and whose first and last are years of involved days, so they run from the earliest involved year to the latest;
- one view per year, each the year view of that year's tasks (as `YearViews.YearView` states it): the header iff the year has tasks, the year's task dates plus the entry date when it falls in the year, strictly ascending, and each day's view over its own tasks;
- the entry date: an involved day whose year is among the years, shown in its year's view; the earliest involved day for `top`, the latest for `bottom`, and today otherwise;
- the quick-entry files, as `Timeline.QuickEntryFiles` states them (`QuickEntryFilesFit`): once each, the task files in order of first occurrence, then the inbox when set and new, then today's daily note last when set and new. With no task files the select's default is therefore the inbox when one is set;
- the class name, as `Timeline.RenderClassName` states it (`ClassNameFits`): it starts with `taskido `, and its non-empty tokens are exactly `taskido`, the styles of the options that are off, the words of the active filter and of the counter behaviour when a filter is active, and `todayFocus` when it is on.

**YearViews.YearView** states:

- the days are exactly the year's task dates plus the entry date when it falls in that year;
- they are strictly ascending;
- each day's view is the date view of its own tasks.

**DateViews.DateView** states:

- the entry widgets appear iff the day is the entry date;
- there is a block iff a task remains after `forward`;
- the block holds those tasks, is marked today iff the day is today, and has the distinct statuses in order of first occurrence (`Tasks.Statuses`).

**InputScript.Configure** states:

- it stops iff `pages` is missing;
- it throws iff the format check throws, and stops iff the format is rejected;
- otherwise every option has its default when falsy;
- the daily-note folder gets `/` appended even when it already ends in one;
- the final format passes the format check;
- the task files are the deduplicated, sorted result of the right query.

## Left out

- Rendering, JSX, refs, event wiring, `setState` plumbing and the React contexts: the model keeps the values they carry, not the elements.
- Obsidian I/O: reading, writing and creating notes, the existence check, the confirmation dialog, notices, opening files, editor selection, plugin commands and global search. Their results are parameters of `Bridge.ObsidianBridge.HandleCreateNewTask`, or they are not part of this model.
- The asynchronous `forEach` of `generateTasksList`: each file read is `Adapter.ObsidianTaskAdapter.ReadFile`, and the order in which reads complete is concurrency.
- The Backbone model subscriptions and `onUpdateUserOption`.
- moment's clock and formatting, `fromNow`, `calendar` and `getRelative`: today is a parameter, and `Clock.format`, `Clock.addMonths` and the daily-note name are given.
- `MarkdownRenderer` and `innerHTML` in the item content.
- The task and block-link regular expressions, the link constructors, `filterDate`, `filterYear`, `filterDateRange`, `getFileTitle` and the status classifier are not part of this model. The block-link match is assumed to lie inside the text it was matched against (`BlockLinkSound`).
- `children` and `subtasks` are always empty in the source, so the task record leaves them out.
- The input script's `eval(pages)`, the Dataview API, CSS injection, `globalTaskFilter`, `done`, `css`, `forward`, `inbox` and `section`, which the script passes on unchanged. The two queries are parameters.
- InputScript.Configure: a parameter whose value is not a string (a number, a boolean) is outside the model; only absent, null, empty and string values are modelled.
- Adapter.SliceContent: the host's `offset` values count UTF-16 code units, and the model slices by characters. The two agree on notes without characters outside the Basic Multilingual Plane; after such a character (an emoji such as 📅) earlier in the note, the source's slice is shifted, which the model does not capture. Slicing by code units can split a surrogate pair, which a sequence of characters cannot hold.
- Adapter.ParseLineFields: the tags are stated as a duplicate-free list with the right members; the first-occurrence order that `[...new Set(tags)]` keeps is not stated.
- TaskItems.VisibleTags: likewise, membership and distinctness are stated, not the order of the shown tags.
- Timeline.Styles: the styles are stated as a set without duplicates; the push order, which only decides the order of the class names, is not stated. `Timeline.TimelineView.Render` states the class's tokens as a set for the same reason.
- InputScript.SortedPaths: JavaScript sorts strings by UTF-16 code units, and the model compares characters by code point. The two orders differ only for characters outside the Basic Multilingual Plane.
- TaskItems.TaskColor: a `color` value that is truthy but not a string (a number, a list) is passed to the style as is in the source. The contract states only the string and absent cases.
- Adapter.ItemOutcome: the contract states only the non-task case and the path and position of a parsed task. The rest of the record is stated by `Adapter.ParseLineFields` over `ParseLine`.
- The `MultiSelect` `onClick` reset of the selected index, and the `visual` captions of its options, are rendering.
- `Array.prototype.remove` (Obsidian's) is modelled as removing every occurrence. On a duplicate-free selection, which `Toggle` keeps, this is the same as removing one.
- The priority multi-select's result array is shared with the quick entry's `priorityFilter` (the same array object). The model copies the reported selection instead.
- The quick entry's `selectedFile` state is never read by the OK button, which reads the file select's current value; the model keeps only that value (`fileSelectValue`), which a newly mounted select resets to the first task file.
- `handleTagClick`, `handleOpenFile`, `handleModifyTask` and `handleCompleteTask` are editor and workspace calls only.
- Integers are unbounded; JavaScript numbers would lose precision only beyond 2^53, far past any line number, count or day number here.

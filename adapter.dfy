/**
 * The task adapter: it selects the vault's markdown files by path and tag filters, walks
 * the list items of each file's metadata cache, and turns every list item that is a
 * markdown task into a task record appended to its `tasksList`.
 *
 * The regular expressions of the Tasks plugin and the link constructors of the Dataview
 * utilities are not part of this model; they are the fields of `Env`.
 */
module Adapter {
  import opened Wrappers
  import opened Seqs
  import opened Strings
  import opened Tasks

  // ---------------------------------------------------------------------------------------
  // The host's cache records
  // ---------------------------------------------------------------------------------------

  /** A markdown file of the vault, with the tags of its metadata cache (`None`: no cache or no tags). */
  datatype MarkdownFile = MarkdownFile(path: string, tags: Option<seq<string>>)

  /** A block of a note (`kind` is the section type, such as "heading", "list" or "paragraph"). */
  datatype Section = Section(kind: string, position: Pos)

  /**
   * A list item. `task` is the character between the brackets, absent for a plain list
   * item; `parent` is the line of the parent item, or a negative number for a root item.
   */
  datatype ListItem = ListItem(task: Option<string>, parent: int, position: Pos)

  /** A link of a note, and a tag of a note, each with where it occurs. */
  datatype LinkRef = LinkRef(link: string, position: Pos)
  datatype TagRef = TagRef(tag: string, position: Pos)

  /** The metadata cache of one file; every part of it may be missing. */
  datatype FileCache = FileCache(
    listItems: Option<seq<ListItem>>,
    sections: Option<seq<Section>>,
    links: Option<seq<LinkRef>>,
    frontmatter: Option<FrontMatter>,
    tags: Option<seq<TagRef>>)

  /** The four groups of a task line matched by the task regular expression. */
  datatype TaskLineMatch = TaskLineMatch(indentation: string, listMarker: string, statusString: string, body: string)

  /**
   * The helpers the adapter calls but this model does not define:
   * `taskRegex` (its groups, or `None` for no match), `blockLinkRegex` (the index at which
   * its match starts; the expression is anchored at the end of the text, so the match runs
   * to the end), `withSectionCache` and `withLinkCache` (the link constructors).
   */
  datatype Env = Env(
    taskRegex: string -> Option<TaskLineMatch>,
    blockLinkRegex: string -> Option<nat>,
    withSectionCache: (Link, Section, string) -> Link,
    withLinkCache: LinkRef -> Link)

  /** A match of the block-link expression lies inside the text it was matched against. */
  ghost predicate BlockLinkSound(env: Env) {
    forall s :: env.blockLinkRegex(s).Some? ==> env.blockLinkRegex(s).value <= |s|
  }

  /** What `fromLine` does with a line: no task, a task, or a `TypeError` thrown on the front matter. */
  datatype Parse = NotATask | Parsed(task: Task) | TypeError

  // ---------------------------------------------------------------------------------------
  // Path and tag filters
  // ---------------------------------------------------------------------------------------

  /** Every segment of `parents` equals the segment of `paths` at the same index, which exists. */
  predicate SegmentsMatch(parents: seq<string>, paths: seq<string>) {
    forall i :: 0 <= i < |parents| ==> i < |paths| && parents[i] == paths[i]
  }

  /**
   * `isParent`: `parent` is a folder (or the file itself) above `path`, compared segment by
   * segment. A segment index past the end of `path` compares with `undefined` and fails.
   */
  function IsParent(parent: string, path: string): (r: bool)
    ensures r <==> path == parent || StartsWith(path, parent + "/")
  {
    if |parent| > |path| then
      IsParentIf(parent, path);
      false
    else
      var paths := Split(path, '/');
      var parents := Split(parent, '/');
      IsParentIf(parent, path);
      if SegmentsMatch(parents, paths) then
        IsParentOnlyIf(parent, path);
        true
      else
        false
  }

  /** A path equal to `parent`, or below it, matches it segment by segment. */
  lemma IsParentIf(parent: string, path: string)
    ensures path == parent || StartsWith(path, parent + "/") ==>
      |parent| <= |path| && SegmentsMatch(Split(parent, '/'), Split(path, '/'))
  {
    if path != parent && StartsWith(path, parent + "/") {
      var rest := path[|parent| + 1..];
      assert path == parent + ['/'] + rest;
      SplitAround(parent, rest, '/');
    }
  }

  /** A segment-by-segment match means equal, or a prefix up to a `/`. */
  lemma IsParentOnlyIf(parent: string, path: string)
    requires SegmentsMatch(Split(parent, '/'), Split(path, '/'))
    ensures path == parent || StartsWith(path, parent + "/")
  {
    var paths, parents := Split(path, '/'), Split(parent, '/');
    SegmentsPrefix(parents, paths);
    var tail := paths[|parents|..];
    JoinSplit(path, '/');
    JoinSplit(parent, '/');
    if tail == [] {
      assert paths == parents;
    } else {
      JoinAppend(parents, tail, '/');
      assert path == parent + "/" + Join(tail, '/');
    }
  }

  lemma SegmentsPrefix(parents: seq<string>, paths: seq<string>)
    requires |parents| >= 1 && SegmentsMatch(parents, paths)
    ensures |parents| <= |paths| && paths == parents + paths[|parents|..]
  {
    var last := parents[|parents| - 1];
    assert |parents| - 1 < |paths|;
    assert paths[..|parents|] == parents;
  }

  /** The predicate of `pathsFilter`: a file is kept iff no entry is a folder above it. */
  function PathsFilter(filter: seq<string>, path: string): (keep: bool)
    ensures keep <==> forall p :: p in filter ==> path != p && !StartsWith(path, p + "/")
    ensures keep == !IncludePathsFilter(filter, path)
  {
    !exists p :: p in filter && IsParent(p, path)
  }

  /** The predicate of `includePathsFilter`: a file is kept iff some entry is a folder above it. */
  function IncludePathsFilter(filter: seq<string>, path: string): (keep: bool)
    ensures keep <==> exists p :: p in filter && (path == p || StartsWith(path, p + "/"))
  {
    exists p :: p in filter && IsParent(p, path)
  }

  /** The predicate of `fileIncludeTagsFilter`: some listed tag is among the file's tags. */
  function FileIncludeTagsFilter(filter: seq<string>, file: MarkdownFile): (keep: bool)
    ensures file.tags.None? ==> !keep
    ensures keep ==> |filter| > 0
  {
    exists i :: 0 <= i < |filter| && file.tags.Some? && filter[i] in file.tags.value
  }

  /** The predicate of `fileExcludeTagsFilter`: no listed tag is among the file's tags. */
  function FileExcludeTagsFilter(filter: seq<string>, file: MarkdownFile): (keep: bool)
    ensures file.tags.None? ==> keep
    ensures keep == !FileIncludeTagsFilter(filter, file)
  {
    forall i :: 0 <= i < |filter| ==> !(file.tags.Some? && filter[i] in file.tags.value)
  }

  /** A file passes every filter whose list is non-empty; an empty list switches its filter off. */
  predicate Admitted(file: MarkdownFile, includeFilter: seq<string>, pathFilter: seq<string>,
                     includeTags: seq<string>, excludeTags: seq<string>)
  {
    && (includeFilter == [] || IncludePathsFilter(includeFilter, file.path))
    && (pathFilter == [] || PathsFilter(pathFilter, file.path))
    && (includeTags == [] || FileIncludeTagsFilter(includeTags, file))
    && (excludeTags == [] || FileExcludeTagsFilter(excludeTags, file))
  }

  /** Four successive filters are one filter by the conjunction of their predicates. */
  lemma {:induction false} FilterChain<T(!new)>(s: seq<T>, q1: T -> bool, q2: T -> bool, q3: T -> bool, q4: T -> bool, all: T -> bool)
    requires forall x :: all(x) == (q1(x) && q2(x) && q3(x) && q4(x))
    ensures Filter(Filter(Filter(Filter(s, q1), q2), q3), q4) == Filter(s, all)
  {
    if s != [] {
      FilterChain(s[1..], q1, q2, q3, q4, all);
      var x := s[0];
      var r1 := Filter(s[1..], q1);
      var r2 := Filter(r1, q2);
      var r3 := Filter(r2, q3);
      if q1(x) {
        assert ([x] + r1)[0] == x && ([x] + r1)[1..] == r1;
        if q2(x) {
          assert ([x] + r2)[0] == x && ([x] + r2)[1..] == r2;
          if q3(x) {
            assert ([x] + r3)[0] == x && ([x] + r3)[1..] == r3;
          }
        }
      }
    }
  }

  /**
   * The filter pipeline of `generateTasksList`: the four filters one after the other, each
   * only when its list is non-empty. The result is the files admitted by all of them, in
   * vault order.
   */
  method FilterFiles(files: seq<MarkdownFile>, includeFilter: seq<string>, pathFilter: seq<string>,
                     includeTags: seq<string>, excludeTags: seq<string>) returns (filtered: seq<MarkdownFile>)
    ensures filtered == Filter(files, f => Admitted(f, includeFilter, pathFilter, includeTags, excludeTags))
    ensures forall f :: f in filtered <==> f in files && Admitted(f, includeFilter, pathFilter, includeTags, excludeTags)
  {
    var q1 := (f: MarkdownFile) => includeFilter == [] || IncludePathsFilter(includeFilter, f.path);
    var q2 := (f: MarkdownFile) => pathFilter == [] || PathsFilter(pathFilter, f.path);
    var q3 := (f: MarkdownFile) => includeTags == [] || FileIncludeTagsFilter(includeTags, f);
    var q4 := (f: MarkdownFile) => excludeTags == [] || FileExcludeTagsFilter(excludeTags, f);

    filtered := files;
    if |includeFilter| != 0 {
      filtered := Filter(filtered, (f: MarkdownFile) => IncludePathsFilter(includeFilter, f.path));
      FilterExt(files, (f: MarkdownFile) => IncludePathsFilter(includeFilter, f.path), q1);
    } else {
      FilterAll(files, q1);
    }
    assert filtered == Filter(files, q1);
    ghost var s1 := filtered;
    if |pathFilter| != 0 {
      filtered := Filter(filtered, (f: MarkdownFile) => PathsFilter(pathFilter, f.path));
      FilterExt(s1, (f: MarkdownFile) => PathsFilter(pathFilter, f.path), q2);
    } else {
      FilterAll(s1, q2);
    }
    assert filtered == Filter(s1, q2);
    ghost var s2 := filtered;
    if |includeTags| != 0 {
      filtered := Filter(filtered, (f: MarkdownFile) => FileIncludeTagsFilter(includeTags, f));
      FilterExt(s2, (f: MarkdownFile) => FileIncludeTagsFilter(includeTags, f), q3);
    } else {
      FilterAll(s2, q3);
    }
    assert filtered == Filter(s2, q3);
    ghost var s3 := filtered;
    if |excludeTags| != 0 {
      filtered := Filter(filtered, (f: MarkdownFile) => FileExcludeTagsFilter(excludeTags, f));
      FilterExt(s3, (f: MarkdownFile) => FileExcludeTagsFilter(excludeTags, f), q4);
    } else {
      FilterAll(s3, q4);
    }
    assert filtered == Filter(s3, q4);
    FilterChain(files, q1, q2, q3, q4, f => Admitted(f, includeFilter, pathFilter, includeTags, excludeTags));
  }

  // ---------------------------------------------------------------------------------------
  // The enclosing section of a list item
  // ---------------------------------------------------------------------------------------

  function StartLine(s: Section): nat {
    s.position.start.line
  }

  /** A heading that starts strictly before `line`. */
  predicate HeadingBefore(s: Section, line: nat) {
    s.kind == "heading" && StartLine(s) < line
  }

  /** The index of the first section starting at `line`. */
  function FirstSectionAt(ss: seq<Section>, line: int): (r: Option<nat>)
    ensures r.None? <==> forall j :: 0 <= j < |ss| ==> StartLine(ss[j]) != line
    ensures r.Some? ==> (r.value < |ss| && StartLine(ss[r.value]) == line
      && forall j :: 0 <= j < r.value ==> StartLine(ss[j]) != line)
  {
    if ss == [] then None
    else if StartLine(ss[0]) == line then Some(0)
    else
      match FirstSectionAt(ss[1..], line)
      case None => None
      case Some(k) => Some(k + 1)
  }

  /**
   * The running maximum of the heading loop of `findParent` after visiting `ss`: the index
   * of the first heading with the greatest start line before `line` (the comparison with
   * the running line `p`, initially -1, is strict, so a later heading on the same line does
   * not replace an earlier one).
   */
  function LatestHeading(ss: seq<Section>, line: nat): (r: Option<nat>)
    ensures r.None? <==> forall j :: 0 <= j < |ss| ==> !HeadingBefore(ss[j], line)
    ensures r.Some? ==> (r.value < |ss| && HeadingBefore(ss[r.value], line)
      && (forall j :: 0 <= j < |ss| && HeadingBefore(ss[j], line) ==> StartLine(ss[j]) <= StartLine(ss[r.value]))
      && (forall j :: 0 <= j < r.value && HeadingBefore(ss[j], line) ==> StartLine(ss[j]) < StartLine(ss[r.value])))
  {
    if ss == [] then None
    else
      var n := |ss| - 1;
      var prev := LatestHeading(ss[..n], line);
      assert forall j :: 0 <= j < n ==> ss[..n][j] == ss[j];
      var p := if prev.Some? then StartLine(ss[prev.value]) else -1;
      if ss[n].kind == "heading" && StartLine(ss[n]) > p && StartLine(ss[n]) < line then Some(n) else prev
  }

  /**
   * `findParent`: no sections, no parent. A child item (`parent > 0`) belongs to the first
   * section starting at its parent's line; a root item to the last heading above it.
   */
  function ParentOf(sections: Option<seq<Section>>, item: ListItem): (r: Option<Section>)
    ensures sections.None? ==> r.None?
    ensures sections.Some? && item.parent > 0 ==>
      && (r.None? <==> forall j :: 0 <= j < |sections.value| ==> StartLine(sections.value[j]) != item.parent)
      && (r.Some? ==> r.value in sections.value && StartLine(r.value) == item.parent)
    ensures sections.Some? && item.parent <= 0 ==>
      var line := item.position.start.line;
      && (r.None? <==> forall j :: 0 <= j < |sections.value| ==> !HeadingBefore(sections.value[j], line))
      && (r.Some? ==> (r.value in sections.value && HeadingBefore(r.value, line)
            && forall s :: s in sections.value && HeadingBefore(s, line) ==> StartLine(s) <= StartLine(r.value)))
  {
    match sections
    case None => None
    case Some(ss) =>
      if item.parent > 0 then
        match FirstSectionAt(ss, item.parent)
        case None => None
        case Some(i) => Some(ss[i])
      else
        match LatestHeading(ss, item.position.start.line)
        case None => None
        case Some(i) => Some(ss[i])
  }

  /** The two `for` loops of `findParent`, the second keeping the running maximum `p`. */
  method FindParent(sections: Option<seq<Section>>, item: ListItem) returns (parent: Option<Section>)
    ensures parent == ParentOf(sections, item)
  {
    if sections.None? {
      return None;
    }
    var ss := sections.value;
    if item.parent > 0 {
      parent := FindSectionAt(ss, item.parent);
    } else {
      parent := FindLatestHeading(ss, item.position.start.line);
    }
  }

  /** The loop over the sections for a child item: the first section starting at `line`. */
  method FindSectionAt(ss: seq<Section>, line: int) returns (r: Option<Section>)
    ensures r == (match FirstSectionAt(ss, line) case None => None case Some(i) => Some(ss[i]))
  {
    var i := 0;
    while i < |ss|
      invariant 0 <= i <= |ss|
      invariant forall j :: 0 <= j < i ==> StartLine(ss[j]) != line
    {
      if ss[i].position.start.line == line {
        return Some(ss[i]);
      }
      i := i + 1;
    }
    return None;
  }

  /**
   * The loop over the sections for a root item: `p` is the start line of the latest
   * heading above `line` so far, -1 before there is one.
   */
  method FindLatestHeading(ss: seq<Section>, line: nat) returns (parentHeader: Option<Section>)
    ensures parentHeader == (match LatestHeading(ss, line) case None => None case Some(i) => Some(ss[i]))
  {
    var p: int := -1;
    parentHeader := None;
    var i := 0;
    while i < |ss|
      invariant 0 <= i <= |ss|
      invariant LatestHeading(ss[..i], line).None? ==> parentHeader.None? && p == -1
      invariant LatestHeading(ss[..i], line).Some? ==>
        var k := LatestHeading(ss[..i], line).value;
        k < i && parentHeader == Some(ss[k]) && p == StartLine(ss[k])
    {
      var s := ss[i];
      assert ss[..i + 1][..i] == ss[..i];
      if s.kind == "heading" && s.position.start.line > p && s.position.start.line < line {
        parentHeader := Some(s);
        p := s.position.start.line;
      }
      i := i + 1;
    }
    assert ss[..i] == ss;
  }

  // ---------------------------------------------------------------------------------------
  // From a line of text to a task
  // ---------------------------------------------------------------------------------------

  /** The tag a string `tag` entry of the front matter contributes: `#` prepended when missing. */
  function TagEntry(t: string): (r: string)
    ensures StartsWith(r, "#") && EndsWith(r, t)
    ensures StartsWith(t, "#") ==> r == t
    ensures !StartsWith(t, "#") ==> r == "#" + t
  {
    (if StartsWith(t, "#") then "" else "#") + t
  }

  /**
   * What one entry of a `tags` list of the front matter contributes: the entry with `#`
   * prepended, except that an entry already starting with `#` contributes the empty string
   * (the conditional binds before the concatenation).
   */
  function TagsEntry(t: string): (r: string)
    ensures StartsWith(t, "#") ==> r == ""
    ensures !StartsWith(t, "#") ==> StartsWith(r, "#") && r[1..] == t
  {
    if StartsWith(t, "#") then "" else "#" + t
  }

  /** Some entry of a front-matter list is not a string. */
  predicate NonStringEntry(items: seq<FrontMatterValue>) {
    exists k :: 0 <= k < |items| && !items[k].FmString?
  }

  /**
   * The contributions of the entries of a `tags` list, in order; `None` when an entry is not
   * a string, as `startsWith` then throws.
   */
  function TagsEntries(items: seq<FrontMatterValue>): (r: Option<seq<string>>)
    ensures r.None? <==> NonStringEntry(items)
    ensures r.Some? ==> |r.value| == |items| && forall k :: 0 <= k < |items| ==> r.value[k] == TagsEntry(items[k].s)
  {
    if items == [] then Some([])
    else if !items[0].FmString? then None
    else
      var rest := TagsEntries(items[1..]);
      assert forall k :: 1 <= k < |items| ==> items[k] == items[1..][k - 1];
      if rest.None? then None else Some([TagsEntry(items[0].s)] + rest.value)
  }

  /**
   * The tags the front matter adds, in push order; `None` when its `tags` value is a
   * mapping (the `typeof` test lets every object through and `forEach` then throws) or a
   * list with an entry that is not a string.
   */
  function FrontMatterTags(fm: FrontMatter): (r: Option<seq<string>>)
    ensures r.None? <==> "tags" in fm && (fm["tags"].FmMap? || (fm["tags"].FmList? && NonStringEntry(fm["tags"].items)))
    ensures r.Some? ==> forall x :: x in r.value ==> x == "" || StartsWith(x, "#")
    ensures r.Some? && "tag" in fm && fm["tag"].FmString? && fm["tag"].s != "" ==> TagEntry(fm["tag"].s) in r.value
    ensures r.Some? && "tags" in fm && fm["tags"].FmList? ==>
      forall t :: FmString(t) in fm["tags"].items ==> TagsEntry(t) in r.value
    ensures r.Some? && !("tag" in fm && fm["tag"].FmString?) && !("tags" in fm && fm["tags"].FmList?) ==> r.value == []
  {
    var tag := TagPart(fm);
    if "tags" in fm && fm["tags"].FmMap? then None
    else if "tags" in fm && fm["tags"].FmList? then
      var entries := TagsEntries(fm["tags"].items);
      if entries.None? then None
      else
        assert forall t :: FmString(t) in fm["tags"].items ==> TagsEntry(t) in entries.value by {
          forall t | FmString(t) in fm["tags"].items ensures TagsEntry(t) in entries.value {
            var k :| 0 <= k < |fm["tags"].items| && fm["tags"].items[k] == FmString(t);
            assert entries.value[k] == TagsEntry(t);
          }
        }
        Some(tag + entries.value)
    else Some(tag)
  }

  /** The entry of the front matter's `tag`, when it is a non-empty string. */
  function TagPart(fm: FrontMatter): seq<string> {
    if "tag" in fm && fm["tag"].FmString? && fm["tag"].s != "" then [TagEntry(fm["tag"].s)] else []
  }

  /** The tags added for an optional front matter (none without one). */
  function AddedTags(frontMatter: Option<FrontMatter>): Option<seq<string>> {
    if frontMatter.None? then Some([]) else FrontMatterTags(frontMatter.value)
  }

  /**
   * The description of a task: the trimmed body with a block link at its end cut off and
   * the remainder trimmed again.
   */
  function Description(env: Env, body: string): (d: string)
    requires BlockLinkSound(env)
    ensures Trim(d) == d
    ensures env.blockLinkRegex(Trim(body)).None? ==> d == Trim(body)
    ensures env.blockLinkRegex(Trim(body)).Some? ==>
      var i := env.blockLinkRegex(Trim(body)).value;
      d == if i < |Trim(body)| then Trim(Trim(body)[..i]) else Trim(body)
  {
    var b := Trim(body);
    TrimEnds(body);
    var m := env.blockLinkRegex(b);
    var blockLink := if m.Some? then b[m.value..] else "";
    if blockLink != "" then
      TrimEnds(b[..m.value]);
      Trim(b[..m.value])
    else b
  }

  /**
   * Removing the first space of a trimmed text leaves something iff the text is non-empty:
   * a trimmed text does not start with a space, so one to remove is never its only character.
   */
  lemma ReplaceSpaceNonEmpty(d: string)
    requires Trim(d) == d
    ensures |ReplaceFirst(d, " ", "")| != 0 <==> d != ""
  {
    TrimEnds(d);
    if d != "" {
      assert !IsWhitespace(d[0]);
      match Strings.IndexOf(d, " ")
      case None =>
      case Some(i) =>
        assert d[i..i + 1] == " ";
        assert i != 0;
    }
  }

  /** The record `fromLine` builds from the match, the description and the final tags. */
  function MakeTask(m: TaskLineMatch, line: string, filePath: string, parent: Link, position: Pos,
                    outLinks: seq<Link>, frontMatter: Option<FrontMatter>, description: string, tags: seq<string>): Task
  {
    Task(
      symbol := m.listMarker,
      link := parent,
      section := parent,
      header := parent,
      text := line,
      visual := Trim(description),
      tags := tags,
      line := position.start.line,
      lineCount := position.end.line - position.start.line + 1,
      list := position.start.line,
      outlinks := outLinks,
      path := filePath,
      position := position,
      status := m.statusString,
      statusMarker := m.statusString,
      checked := |ReplaceFirst(description, " ", "")| != 0,
      completed := m.statusString == "x",
      fullyCompleted := m.statusString != " ",
      dailyNote := false,
      order := 0,
      priority := "",
      recurrence := "",
      frontMatter := frontMatter.GetOr(map[]),
      isTasksTask := false,
      annotated := false,
      isReal := true,
      created := None,
      due := None,
      scheduled := None,
      start := None,
      completion := None,
      dates := [])
  }

  /**
   * `fromLine`: the task a list-item line describes, no task when the task expression does
   * not match it, or the `TypeError` of a `tags` mapping in the front matter.
   */
  function ParseLine(env: Env, line: string, filePath: string, parent: Link, position: Pos,
                     outLinks: seq<Link>, frontMatter: Option<FrontMatter>, tags: seq<string>): (r: Parse)
    requires BlockLinkSound(env)
    ensures r.NotATask? <==> env.taskRegex(line).None?
    ensures r.TypeError? <==> env.taskRegex(line).Some? && AddedTags(frontMatter).None?
    ensures r.Parsed? ==> r.task.text == line && r.task.path == filePath && r.task.position == position
  {
    match env.taskRegex(line)
    case None => NotATask
    case Some(m) =>
      match AddedTags(frontMatter)
      case None => TypeError
      case Some(added) =>
        Parsed(MakeTask(m, line, filePath, parent, position, outLinks, frontMatter, Description(env, m.body), Dedup(tags + added)))
  }

  /**
   * The record of a parsed line: the visual text is the description, the flags follow the
   * status character, `checked` holds iff there is visible text, the tags are those given
   * plus those of the front matter without repetitions, the front matter is kept (an empty
   * one when the note has none), and no date, priority or recurrence is parsed.
   */
  lemma ParseLineFields(env: Env, line: string, filePath: string, parent: Link, position: Pos,
                        outLinks: seq<Link>, frontMatter: Option<FrontMatter>, tags: seq<string>)
    requires BlockLinkSound(env)
    ensures var r := ParseLine(env, line, filePath, parent, position, outLinks, frontMatter, tags);
      r.Parsed? ==>
      var t, m := r.task, env.taskRegex(line).value;
      && t.outlinks == outLinks
      && t.visual == Description(env, m.body)
      && t.symbol == m.listMarker
      && t.status == m.statusString && t.statusMarker == m.statusString
      && (t.completed <==> m.statusString == "x")
      && (t.fullyCompleted <==> m.statusString != " ")
      && (t.checked <==> t.visual != "")
      && Distinct(t.tags)
      && (forall x :: x in t.tags <==> x in tags || x in AddedTags(frontMatter).value)
      && t.line == position.start.line && t.list == position.start.line
      && t.lineCount == position.end.line - position.start.line + 1
      && t.link == parent && t.section == parent && t.header == parent
      && t.priority == "" && t.recurrence == "" && t.order == 0
      && t.created.None? && t.due.None? && t.scheduled.None? && t.start.None? && t.completion.None?
      && t.dates == []
      && t.isReal && !t.annotated && !t.isTasksTask && !t.dailyNote
      && t.frontMatter == frontMatter.GetOr(map[])
  {
    if env.taskRegex(line).Some? && AddedTags(frontMatter).Some? {
      ReplaceSpaceNonEmpty(Description(env, env.taskRegex(line).value.body));
    }
  }

  /**
   * The tags of the items of a `tags` list of the front matter, pushed one at a time;
   * `None` when the `forEach` throws on an entry that is not a string.
   */
  method PushTagsEntries(tags: seq<string>, items: seq<FrontMatterValue>) returns (r: Option<seq<string>>)
    ensures r.None? <==> TagsEntries(items).None?
    ensures r.Some? ==> r.value == tags + TagsEntries(items).value
  {
    var pushed := tags;
    var k := 0;
    while k < |items|
      invariant 0 <= k <= |items|
      invariant |pushed| == |tags| + k && pushed[..|tags|] == tags
      invariant forall j :: 0 <= j < k ==> items[j].FmString? && pushed[|tags| + j] == TagsEntry(items[j].s)
    {
      if !items[k].FmString? {
        return None;
      }
      var t := items[k].s;
      pushed := pushed + [if StartsWith(t, "#") then "" else "#" + t];
      k := k + 1;
    }
    var entries := TagsEntries(items);
    assert pushed == tags + entries.value by {
      assert pushed[..|tags|] == tags;
      forall j | 0 <= j < |items| ensures pushed[|tags| + j] == entries.value[j] {
      }
    }
    return Some(pushed);
  }

  /** The description part of `fromLine`: trim, then cut a block link and trim again. */
  method StripBlockLink(env: Env, matchedBody: string) returns (description: string)
    requires BlockLinkSound(env)
    ensures description == Description(env, matchedBody)
  {
    var body := Trim(matchedBody);
    description := body;
    var blockLinkMatch := env.blockLinkRegex(description);
    var blockLink := if blockLinkMatch.Some? then description[blockLinkMatch.value..] else "";
    if blockLink != "" {
      description := Trim(description[..blockLinkMatch.value]);
    }
  }

  /**
   * The front-matter part of `fromLine`: pushes the `tag` entry, then the `tags` entries;
   * `None` when `forEach` throws on a `tags` mapping.
   */
  method PushFrontMatterTags(tags: seq<string>, fm: FrontMatter) returns (r: Option<seq<string>>)
    ensures r.None? <==> FrontMatterTags(fm).None?
    ensures r.Some? ==> r.value == tags + FrontMatterTags(fm).value
  {
    var pushed := PushTag(tags, fm);
    FrontMatterTagsCases(fm);
    if "tags" in fm && (fm["tags"].FmList? || fm["tags"].FmMap?) {
      if fm["tags"].FmMap? {
        return None;
      }
      var entries := PushTagsEntries(pushed, fm["tags"].items);
      if entries.None? {
        return None;
      }
      AppendAssoc(tags, TagPart(fm), TagsEntries(fm["tags"].items).value);
      pushed := entries.value;
    }
    return Some(pushed);
  }

  lemma FrontMatterTagsCases(fm: FrontMatter)
    ensures "tags" in fm && fm["tags"].FmMap? ==> FrontMatterTags(fm).None?
    ensures "tags" in fm && fm["tags"].FmList? ==>
      FrontMatterTags(fm) == (var e := TagsEntries(fm["tags"].items); if e.None? then None else Some(TagPart(fm) + e.value))
    ensures !("tags" in fm && (fm["tags"].FmList? || fm["tags"].FmMap?)) ==> FrontMatterTags(fm) == Some(TagPart(fm))
  {
  }

  /** The front matter's `tag`, with a `#` put in front when it lacks one. */
  method PushTag(tags: seq<string>, fm: FrontMatter) returns (pushed: seq<string>)
    ensures pushed == tags + TagPart(fm)
  {
    pushed := tags;
    if "tag" in fm && fm["tag"].FmString? && fm["tag"].s != "" {
      var frontmatterTagPrefix := if StartsWith(fm["tag"].s, "#") then "" else "#";
      pushed := pushed + [frontmatterTagPrefix + fm["tag"].s];
    }
  }

  /**
   * `fromLine` step by step: match, trim, cut the block link, push the front-matter tags,
   * deduplicate, build the record.
   */
  method FromLine(env: Env, line: string, filePath: string, parent: Link, position: Pos,
                  outLinks: seq<Link>, frontMatter: Option<FrontMatter>, tags0: seq<string>) returns (r: Parse)
    requires BlockLinkSound(env)
    ensures r == ParseLine(env, line, filePath, parent, position, outLinks, frontMatter, tags0)
  {
    var regexMatch := env.taskRegex(line);
    if regexMatch.None? {
      return NotATask;
    }
    var description := StripBlockLink(env, regexMatch.value.body);
    var tags := tags0;
    if frontMatter.Some? {
      var pushed := PushFrontMatterTags(tags, frontMatter.value);
      if pushed.None? {
        return TypeError;
      }
      tags := pushed.value;
    }
    assert tags == tags0 + AddedTags(frontMatter).value;
    tags := Dedup(tags);
    r := Parsed(MakeTask(regexMatch.value, line, filePath, parent, position, outLinks, frontMatter, description, tags));
  }

  // ---------------------------------------------------------------------------------------
  // From a list item of the cache to a task
  // ---------------------------------------------------------------------------------------

  /** `sliceFileContent`: the text of a span, cut from the file content by character offsets. */
  function SliceContent(content: string, pos: Pos): (r: string)
    ensures pos.start.offset <= pos.end.offset <= |content| ==> r == content[pos.start.offset..pos.end.offset]
    ensures pos.end.offset <= pos.start.offset ==> r == ""
  {
    Slice(content, pos.start.offset, pos.end.offset)
  }

  /** `findOutLinks`: the links of the item's line, turned into links; none without a link cache. */
  function OutLinks(env: Env, links: Option<seq<LinkRef>>, line: nat): (r: seq<Link>)
    ensures links.None? ==> r == []
    ensures links.Some? ==> |r| == Count(links.value, (l: LinkRef) => l.position.start.line == line)
    ensures forall x :: x in r ==> exists l :: l in links.value && l.position.start.line == line && x == env.withLinkCache(l)
  {
    match links
    case None => []
    case Some(ls) =>
      var onLine := Filter(ls, (l: LinkRef) => l.position.start.line == line);
      var r := Map(onLine, env.withLinkCache);
      forall x | x in r
        ensures exists l :: l in ls && l.position.start.line == line && x == env.withLinkCache(l)
      {
        var k :| 0 <= k < |r| && r[k] == x;
        var l := onLine[k];
        assert l in onLine;
        assert l in ls && l.position.start.line == line && x == env.withLinkCache(l);
      }
      r
  }

  /** `findTags`: the tags occurring on the item's line, in cache order; none without a tag cache. */
  function LineTags(tagsCache: Option<seq<TagRef>>, line: nat): (r: seq<string>)
    ensures tagsCache.None? ==> r == []
    ensures tagsCache.Some? ==> forall x :: x in r <==> exists t :: t in tagsCache.value && t.position.start.line == line && t.tag == x
  {
    match tagsCache
    case None => []
    case Some(ts) =>
      var onLine := Filter(ts, (t: TagRef) => t.position.start.line == line);
      var r := Map(onLine, (t: TagRef) => t.tag);
      assert forall k :: 0 <= k < |r| ==> onLine[k] in onLine;
      assert forall t :: t in onLine ==> t.tag in r by {
        forall t | t in onLine ensures t.tag in r {
          var k :| 0 <= k < |onLine| && onLine[k] == t;
          assert r[k] == t.tag;
        }
      }
      r
  }

  /** The link of the item's enclosing section, or the file's link when there is none. */
  function ParentLink(env: Env, link: Link, content: string, sections: Option<seq<Section>>, item: ListItem): Link {
    match ParentOf(sections, item)
    case None => link
    case Some(s) => env.withSectionCache(link, s, SliceContent(content, s.position))
  }

  /** The closure `fromItemCache` returns, applied to one list item. */
  function ItemOutcome(env: Env, link: Link, filePath: string, content: string, cache: FileCache, item: ListItem): (r: Parse)
    requires BlockLinkSound(env)
    ensures item.task.None? || item.task == Some("") ==> r.NotATask?
    ensures r.Parsed? ==> r.task.path == filePath && r.task.position == item.position
  {
    if item.task.None? || item.task.value == "" then NotATask
    else
      var line := item.position.start.line;
      ParseLine(env, SliceContent(content, item.position), filePath, ParentLink(env, link, content, cache.sections, item),
        item.position, OutLinks(env, cache.links, line), cache.frontmatter, LineTags(cache.tags, line))
  }

  lemma AppendAssoc<T>(a: seq<T>, b: seq<T>, c: seq<T>)
    ensures a + (b + c) == (a + b) + c
  {
  }

  /** What one outcome appends to the task list: the task, if there is one. */
  function Appended(p: Parse): (r: seq<Task>)
    ensures |r| <= 1
    ensures r != [] <==> p.Parsed?
  {
    if p.Parsed? then [p.task] else []
  }

  /**
   * The tasks the `forEach` over a file's list items appends, in item order. A `TypeError`
   * ends the `forEach`: the items after it are not visited.
   */
  function ItemsTasks(env: Env, link: Link, filePath: string, content: string, cache: FileCache, items: seq<ListItem>): (r: seq<Task>)
    requires BlockLinkSound(env)
    ensures |r| <= |items|
    ensures forall k :: 0 <= k < |r| ==> r[k].path == filePath
  {
    if items == [] then []
    else
      var outcome := ItemOutcome(env, link, filePath, content, cache, items[0]);
      if outcome.TypeError? then []
      else
        var here, rest := Appended(outcome), ItemsTasks(env, link, filePath, content, cache, items[1..]);
        assert forall k :: 0 <= k < |here| ==> here[k].path == filePath;
        here + rest
  }

  /** The tasks read from one file: none without a cache or without list items. */
  function FileTasks(env: Env, file: MarkdownFile, content: string, cache: Option<FileCache>): (r: seq<Task>)
    requires BlockLinkSound(env)
    ensures forall k :: 0 <= k < |r| ==> r[k].path == file.path
    ensures cache.None? || cache.value.listItems.None? ==> r == []
  {
    if cache.None? || cache.value.listItems.None? then []
    else ItemsTasks(env, Link(file.path, None), file.path, content, cache.value, cache.value.listItems.value)
  }

  /** The adapter: the list of tasks read from the vault so far. */
  class ObsidianTaskAdapter {
    var tasksList: seq<Task>
    const env: Env

    constructor(env: Env)
      ensures this.env == env && tasksList == []
    {
      this.env := env;
      tasksList := [];
    }

    /** `getTaskList`: a copy of the list. */
    method GetTaskList() returns (r: seq<Task>)
      ensures r == tasksList
    {
      r := tasksList;
    }

    /**
     * `generateTasksList`: empties the list and selects the files to read; reading them is
     * `ReadFile`, once per selected file, in whatever order the reads complete.
     */
    method GenerateTasksList(files: seq<MarkdownFile>, includeFilter: seq<string>, pathFilter: seq<string>,
                             includeTags: seq<string>, excludeTags: seq<string>) returns (toRead: seq<MarkdownFile>)
      modifies this
      ensures tasksList == []
      ensures toRead == Filter(files, f => Admitted(f, includeFilter, pathFilter, includeTags, excludeTags))
    {
      tasksList := [];
      toRead := FilterFiles(files, includeFilter, pathFilter, includeTags, excludeTags);
    }

    /**
     * `fromItemCache` applied to one item: appends the item's task when it is one, and
     * reports a thrown `TypeError`.
     */
    method FromItemCache(link: Link, filePath: string, content: string, cache: FileCache, item: ListItem) returns (thrown: bool)
      requires BlockLinkSound(env)
      modifies this
      ensures thrown <==> ItemOutcome(env, link, filePath, content, cache, item).TypeError?
      ensures tasksList == old(tasksList) + Appended(ItemOutcome(env, link, filePath, content, cache, item))
    {
      if item.task.None? || item.task.value == "" {
        return false;
      }
      var itemPos := item.position;
      var itemText := SliceContent(content, itemPos);
      var parentItem := FindParent(cache.sections, item);
      var outLinks := OutLinks(env, cache.links, itemPos.start.line);
      var parentLink := if parentItem.Some? then env.withSectionCache(link, parentItem.value, SliceContent(content, parentItem.value.position)) else link;
      var tags := LineTags(cache.tags, itemPos.start.line);
      var taskItem := FromLine(env, itemText, filePath, parentLink, itemPos, outLinks, cache.frontmatter, tags);
      if taskItem.Parsed? {
        tasksList := tasksList + [taskItem.task];
      }
      thrown := taskItem.TypeError?;
    }

    /**
     * The `then` callback of a file read: every list item of the cache goes through
     * `fromItemCache` until one throws.
     */
    method ReadFile(file: MarkdownFile, content: string, cache: Option<FileCache>)
      requires BlockLinkSound(env)
      modifies this
      ensures tasksList == old(tasksList) + FileTasks(env, file, content, cache)
    {
      if cache.None? || cache.value.listItems.None? {
        return;
      }
      var link := Link(file.path, None);
      var items := cache.value.listItems.value;
      ghost var total := FileTasks(env, file, content, cache);
      var i := 0;
      var thrown := false;
      assert items[0..] == items;
      while i < |items| && !thrown
        invariant 0 <= i <= |items|
        invariant !thrown ==> old(tasksList) + total == tasksList + ItemsTasks(env, link, file.path, content, cache.value, items[i..])
        invariant thrown ==> tasksList == old(tasksList) + total
      {
        ghost var before := tasksList;
        ghost var outcome := ItemOutcome(env, link, file.path, content, cache.value, items[i]);
        ghost var rest := ItemsTasks(env, link, file.path, content, cache.value, items[i + 1..]);
        assert items[i..][0] == items[i] && items[i..][1..] == items[i + 1..];
        thrown := FromItemCache(link, file.path, content, cache.value, items[i]);
        assert tasksList == before + Appended(outcome);
        if !thrown {
          assert ItemsTasks(env, link, file.path, content, cache.value, items[i..]) == Appended(outcome) + rest;
          AppendAssoc(before, Appended(outcome), rest);
        } else {
          assert ItemsTasks(env, link, file.path, content, cache.value, items[i..]) == [];
          assert Appended(outcome) == [];
        }
        i := i + 1;
      }
      assert !thrown ==> items[i..] == [];
    }
  }
}

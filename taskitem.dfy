/**
 * The task item view: the strings and flags one task's row is drawn from — the text shown,
 * the escaped link, the colour, the checkbox, the badges for priority, recurrence and
 * file, and the tag badges with their labels and colours.
 */
module TaskItems {
  import opened Wrappers
  import opened Seqs
  import opened Strings
  import opened Tasks

  /** `item.visual || item.text`: the description when there is one, else the whole line. */
  function Display(t: Task): (d: string)
    ensures t.visual != "" ==> d == t.visual
    ensures t.visual == "" ==> d == t.text
    ensures d == "" <==> t.visual == "" && t.text == ""
  {
    if t.visual != "" then t.visual else t.text
  }

  /** `path.replace("'", "&apos;")`: only the first apostrophe is escaped. */
  function EscapedLink(path: string): (r: string)
    ensures '\'' !in path ==> r == path
    ensures Strings.IndexOf(path, "'").Some? ==>
      var first := Strings.IndexOf(path, "'").value;
      first < |path| && r == path[..first] + "&apos;" + path[first + 1..]
  {
    OccursAtChar(path, '\'');
    ReplaceFirst(path, "'", "&apos;")
  }

  /** The apostrophe escaped is the first one of the path. */
  lemma EscapedLinkFirst(path: string, i: nat)
    requires i < |path| && path[i] == '\'' && forall k :: 0 <= k < i ==> path[k] != '\''
    ensures EscapedLink(path) == path[..i] + "&apos;" + path[i + 1..]
  {
    var first := FirstApostrophe(path, i);
    assert first == i;
  }

  /** A path with two apostrophes keeps the second one unescaped. */
  lemma EscapedLinkKeepsLater(path: string, i: nat, j: nat)
    requires i < j < |path| && path[i] == '\'' && path[j] == '\''
    ensures '\'' in EscapedLink(path)
  {
    var first := FirstApostrophe(path, i);
    var rest := path[first + 1..];
    assert rest[j - first - 1] == '\'';
    InSuffix(path[..first] + "&apos;", rest, '\'');
  }

  lemma InSuffix(a: string, b: string, c: char)
    requires c in b
    ensures c in a + b
  {
  }

  /** The first apostrophe of a path, as `indexOf` finds it, is at or before any apostrophe of it. */
  lemma FirstApostrophe(path: string, i: nat) returns (first: nat)
    requires i < |path| && path[i] == '\''
    ensures Strings.IndexOf(path, "'") == Some(first)
    ensures first <= i && path[first] == '\''
    ensures forall k :: 0 <= k < first ==> path[k] != '\''
  {
    OccursAtChar(path, '\'');
    assert OccursAt(path, "'", i);
    first := Strings.IndexOf(path, "'").value;
  }

  /** The accent colour: the note's front-matter `color` when it is a non-empty string, else the muted text colour. */
  function TaskColor(frontMatter: FrontMatter): (c: string)
    ensures "color" in frontMatter && frontMatter["color"].FmString? && frontMatter["color"].s != "" ==>
      c == frontMatter["color"].s
    ensures "color" !in frontMatter ==> c == "var(--text-muted)"
  {
    if "color" in frontMatter && frontMatter["color"].FmString? && frontMatter["color"].s != "" then frontMatter["color"].s
    else "var(--text-muted)"
  }

  /** The checkbox starts checked for any marker but a space. */
  function PreChecked(marker: string): (checked: bool)
    ensures checked <==> marker != " "
  {
    marker != " "
  }

  /** The priority badge: shown only with a priority, so its "No Priority" label is never used. */
  function PriorityLabel(priority: string): (badge: Option<string>)
    ensures badge.None? <==> priority == ""
    ensures badge.Some? ==> badge.value == priority + " Priority"
  {
    if priority != "" then Some(if |priority| > 0 then priority + " Priority" else "No Priority") else None
  }

  /** The recurrence badge: shown only with a recurrence rule, whose first recurrence symbol is dropped. */
  function RecurrenceLabel(recurrence: string, recurrenceSymbol: string): (badge: Option<string>)
    ensures badge.None? <==> recurrence == ""
    ensures badge.Some? && !Contains(recurrence, recurrenceSymbol) ==> badge.value == recurrence
    ensures badge.Some? && Contains(recurrence, recurrenceSymbol) ==>
      var i := Strings.IndexOf(recurrence, recurrenceSymbol).value;
      badge.value == recurrence[..i] + recurrence[i + |recurrenceSymbol|..]
  {
    if recurrence != "" then Some(ReplaceFirst(recurrence, recurrenceSymbol, "")) else None
  }

  /** A rule written after its recurrence symbol, as the line parser leaves it, is shown without the symbol. */
  lemma RecurrenceLabelLeadingSymbol(recurrence: string, recurrenceSymbol: string)
    requires recurrence != "" && StartsWith(recurrence, recurrenceSymbol)
    ensures RecurrenceLabel(recurrence, recurrenceSymbol) == Some(recurrence[|recurrenceSymbol|..])
  {
    assert OccursAt(recurrence, recurrenceSymbol, 0);
    assert Strings.IndexOf(recurrence, recurrenceSymbol) == Some(0);
  }

  /** The file badge's header: the section's heading after a separator, or nothing without one. */
  function FileBadgeHeader(subpath: Option<string>): (h: string)
    ensures subpath.None? || subpath == Some("") ==> h == ""
    ensures subpath.Some? && subpath.value != "" ==> h == "  >  " + subpath.value
  {
    var subPath := if subpath.Some? && subpath.value != "" then subpath.value else "";
    if subPath != "" then "  >  " + subPath else subPath
  }

  /** The tags drawn: the task's tags once each, in order, without the hidden ones. */
  function VisibleTags(tags: seq<string>, hideTags: seq<string>): (r: seq<string>)
    ensures Distinct(r)
    ensures forall t :: t in r <==> t in tags && t !in hideTags
    ensures forall t :: t in hideTags ==> t !in r
  {
    var once := Dedup(tags);
    DedupIdempotent(tags);
    var shown := Filter(Dedup(once), (t: string) => t !in hideTags);
    FilterDistinct(Dedup(once), (t: string) => t !in hideTags);
    shown
  }

  /** Hiding tags after hiding them is hiding them once. */
  lemma VisibleTagsIdempotent(tags: seq<string>, hideTags: seq<string>)
    ensures VisibleTags(VisibleTags(tags, hideTags), hideTags) == VisibleTags(tags, hideTags)
  {
    var p := (t: string) => t !in hideTags;
    var once := Dedup(tags);
    DedupIdempotent(tags);
    var r := Filter(once, p);
    FilterDistinct(once, p);
    assert VisibleTags(tags, hideTags) == r;
    DedupIdempotent(r);
    assert Dedup(r) == r;
    assert Dedup(Dedup(r)) == r;
    FilterIdempotent(once, p);
  }

  /** `tag.replace("#", "")`: the label drops the first `#` only. */
  function TagLabel(tag: string): (text: string)
    ensures StartsWith(tag, "#") ==> text == tag[1..]
    ensures '#' !in tag ==> text == tag
    ensures Contains(tag, "#") ==> |text| == |tag| - 1
  {
    OccursAtChar(tag, '#');
    ReplaceFirst(tag, "#", "")
  }

  /** A tag's colours: the palette's colour and the same colour with a 10% alpha, or the muted text colour. */
  datatype TagStyle = Colored(color: string, background: string) | Muted

  function TagBadgeStyle(tag: string, palette: map<string, string>): (s: TagStyle)
    ensures s.Colored? <==> tag in palette && palette[tag] != ""
    ensures s.Colored? ==> s.color == palette[tag] && s.background == palette[tag] + "1a"
  {
    var color := if tag in palette then palette[tag] else "";
    if color != "" then Colored(color, color + "1a") else Muted
  }
}

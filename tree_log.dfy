/**
 * The tree-shaped console/file logger: a small stack machine (which
 * nesting levels still have siblings, and the current depth) from which
 * the line prefixes are built, the layout of a "perfect tree" section,
 * and the routing of one message to the three log files.
 *
 * The module-level globals of the logger (`_tree_stack`, `_current_depth`,
 * `_is_first_section`) and the three files are fields of one object here.
 */
module TreeLog {
  import opened Common

  // TREE_SYMBOLS
  const Branch: string := "\U{251C}\U{2500}"
  const Last: string := "\U{2514}\U{2500}"
  const Pipe: string := "\U{2502} "
  const Space: string := "  "
  const NestedBranch: string := Branch
  const NestedLast: string := Last

  const FolderIcon: string := "\U{1F4C1}"

  /** The symbol that ends every prefix. */
  function EndSymbol(isLast: bool): (s: string)
    ensures |s| == 2
  {
    if isLast then Last else Branch
  }

  /** The two characters drawn for nesting level `i`. */
  function Segment(stack: seq<bool>, i: nat): (s: string)
    ensures |s| == 2
  {
    if i < |stack| && stack[i] then Pipe else Space
  }

  lemma SymbolsDistinct()
    ensures Branch != Last && Pipe != Space
    ensures Branch[0] != Last[0] && Pipe[0] != Space[0]
  {
  }

  lemma InfoIsNotErrorLevel()
    ensures !IsErrorLevel("INFO")
  {
    assert "INFO"[0] != "ERROR"[0] && "INFO"[0] != "CRITICAL"[0] && "INFO"[0] != "WARNING"[0];
  }

  /** One entry of the JSON log. */
  datatype JsonEntry = JsonEntry(timestamp: string, level: string, category: string, message: string)

  /** A message with the category it is logged under. */
  datatype Line = Line(message: string, category: string)

  predicate IsErrorLevel(level: string)
  {
    level == "ERROR" || level == "CRITICAL" || level == "WARNING"
  }

  /** The text appended to logs.log (and errors.log) for one message; a blank one is a blank line. */
  function FileEntry(timestamp: string, level: string, message: string): string
  {
    if !IsBlank(message) then timestamp + " [" + level + "] " + message + "\n" else "\n"
  }

  /** The JSON entries for one message: none for a blank one. */
  function JsonEntries(timestamp: string, level: string, category: string, message: string): seq<JsonEntry>
  {
    if !IsBlank(message) then [JsonEntry(timestamp, level, category, Strip(message))] else []
  }

  function MainEntries(timestamp: string, level: string, lines: seq<Line>): (r: seq<string>)
    ensures |r| == |lines|
    decreases |lines|
  {
    if lines == [] then []
    else MainEntries(timestamp, level, lines[..|lines| - 1])
         + [FileEntry(timestamp, level, lines[|lines| - 1].message)]
  }

  function JsonEntriesOf(timestamp: string, level: string, lines: seq<Line>): (r: seq<JsonEntry>)
    decreases |lines|
  {
    if lines == [] then []
    else JsonEntriesOf(timestamp, level, lines[..|lines| - 1])
         + JsonEntries(timestamp, level, lines[|lines| - 1].category, lines[|lines| - 1].message)
  }

  lemma EntriesSnoc(mainBefore: seq<string>, jsonBefore: seq<JsonEntry>,
                    timestamp: string, level: string, lines: seq<Line>, k: nat)
    requires k < |lines|
    ensures mainBefore + MainEntries(timestamp, level, lines[..k + 1])
            == (mainBefore + MainEntries(timestamp, level, lines[..k])) + [FileEntry(timestamp, level, lines[k].message)]
    ensures jsonBefore + JsonEntriesOf(timestamp, level, lines[..k + 1])
            == (jsonBefore + JsonEntriesOf(timestamp, level, lines[..k]))
               + JsonEntries(timestamp, level, lines[k].category, lines[k].message)
  {
    var done := lines[..k + 1];
    assert done[..k] == lines[..k] && done[k] == lines[k];
  }

  // ---------------------------------------------------------------------
  // The layout of log_perfect_tree_section
  // ---------------------------------------------------------------------

  function ItemText(prefix: string, item: (string, string)): string
  {
    prefix + " " + item.0 + ": " + item.1
  }

  /** Main item `i` of `n`: "last" only for the final one and only without groups. */
  function MainLine(items: seq<(string, string)>, i: nat, hasNested: bool): Line
    requires i < |items|
  {
    Line(ItemText(EndSymbol(i == |items| - 1 && !hasNested), items[i]), "tree_item")
  }

  function GroupHeaderLine(name: string, isLastGroup: bool): Line
  {
    Line(EndSymbol(isLastGroup) + " " + FolderIcon + " " + name, "perfect_tree_nested_group")
  }

  /** A nested item: continuation or blank column, then its own symbol. */
  function NestedPrefix(isLastGroup: bool, isLastItem: bool): (p: string)
    ensures |p| == 4
  {
    (if isLastGroup then Space else Pipe) + (if isLastItem then Last else Branch)
  }

  function NestedLine(items: seq<(string, string)>, j: nat, isLastGroup: bool): Line
    requires j < |items|
  {
    Line(ItemText(NestedPrefix(isLastGroup, j == |items| - 1), items[j]), "perfect_tree_nested_item")
  }

  function MainLines(items: seq<(string, string)>, hasNested: bool, k: nat): (r: seq<Line>)
    requires k <= |items|
    ensures |r| == k
    ensures forall i :: 0 <= i < k ==> r[i] == MainLine(items, i, hasNested)
    decreases k
  {
    if k == 0 then [] else MainLines(items, hasNested, k - 1) + [MainLine(items, k - 1, hasNested)]
  }

  function NestedLines(items: seq<(string, string)>, isLastGroup: bool, k: nat): (r: seq<Line>)
    requires k <= |items|
    ensures |r| == k
    ensures forall j :: 0 <= j < k ==> r[j] == NestedLine(items, j, isLastGroup)
    decreases k
  {
    if k == 0 then [] else NestedLines(items, isLastGroup, k - 1) + [NestedLine(items, k - 1, isLastGroup)]
  }

  function GroupBlock(groups: seq<(string, seq<(string, string)>)>, g: nat): seq<Line>
    requires g < |groups|
  {
    var isLastGroup := g == |groups| - 1;
    [GroupHeaderLine(groups[g].0, isLastGroup)]
    + NestedLines(groups[g].1, isLastGroup, |groups[g].1|)
  }

  function GroupLines(groups: seq<(string, seq<(string, string)>)>, k: nat): (r: seq<Line>)
    requires k <= |groups|
    // at least a header per group, the first group's header first, and only group lines
    ensures |r| >= k
    ensures k > 0 ==> r[0] == GroupHeaderLine(groups[0].0, |groups| == 1)
    ensures forall i :: 0 <= i < |r| ==>
              r[i].category == "perfect_tree_nested_group" || r[i].category == "perfect_tree_nested_item"
    decreases k
  {
    if k == 0 then [] else GroupLines(groups, k - 1) + GroupBlock(groups, k - 1)
  }

  /** Every line a section writes after the optional spacing line. */
  function SectionLines(title: string, items: seq<(string, string)>, emoji: string,
                        groups: seq<(string, seq<(string, string)>)>): (r: seq<Line>)
    // the header, then every main item in order, then at least one line per group
    ensures |r| >= 1 + |items| + |groups|
    ensures r[0] == Line(emoji + " " + title, "perfect_tree_section")
    ensures forall i :: 1 <= i <= |items| ==> r[i] == MainLine(items, i - 1, |groups| > 0)
  {
    [Line(emoji + " " + title, "perfect_tree_section")]
    + MainLines(items, |groups| > 0, |items|)
    + GroupLines(groups, |groups|)
  }

  /**
   * A main item is drawn with the "last" symbol exactly when it is the
   * final item and the section has no nested groups.
   */
  lemma MainItemLastMarker(items: seq<(string, string)>, hasNested: bool, i: nat)
    requires i < |items|
    ensures var m := MainLines(items, hasNested, |items|)[i].message;
            StartsWith(m, Last) <==> (i == |items| - 1 && !hasNested)
    ensures var m := MainLines(items, hasNested, |items|)[i].message;
            StartsWith(m, Last) || StartsWith(m, Branch)
  {
    var m := MainLines(items, hasNested, |items|)[i].message;
    var sym := EndSymbol(i == |items| - 1 && !hasNested);
    assert m == sym + (" " + items[i].0 + ": " + items[i].1);
    assert m[..2] == sym;
    SymbolsDistinct();
  }

  /**
   * A nested item starts with the continuation column ("│ ") unless its
   * group is the last one ("  "), then "└─" for the group's final item
   * and "├─" otherwise.
   */
  lemma NestedItemMarkers(items: seq<(string, string)>, isLastGroup: bool, j: nat)
    requires j < |items|
    ensures var m := NestedLines(items, isLastGroup, |items|)[j].message;
            |m| >= 4
            && (m[..2] == Space <==> isLastGroup) && (m[..2] == Pipe <==> !isLastGroup)
            && (m[2..4] == Last <==> j == |items| - 1) && (m[2..4] == Branch <==> j != |items| - 1)
  {
    var m := NestedLines(items, isLastGroup, |items|)[j].message;
    var p := NestedPrefix(isLastGroup, j == |items| - 1);
    assert m == p + (" " + items[j].0 + ": " + items[j].1);
    assert m[..4] == p;
    assert m[..2] == p[..2] && m[2..4] == p[2..4];
    SymbolsDistinct();
  }

  /** A group header is drawn with "└─" exactly for the last group. */
  lemma GroupHeaderMarker(groups: seq<(string, seq<(string, string)>)>, g: nat)
    requires g < |groups|
    ensures var m := GroupBlock(groups, g)[0].message;
            StartsWith(m, Last) <==> g == |groups| - 1
  {
    var m := GroupBlock(groups, g)[0].message;
    var sym := EndSymbol(g == |groups| - 1);
    assert m == sym + (" " + FolderIcon + " " + groups[g].0);
    assert m[..2] == sym;
    SymbolsDistinct();
  }

  // ---------------------------------------------------------------------
  // The logger
  // ---------------------------------------------------------------------

  class TreeLogger {
    var isFirstSection: bool
    var treeStack: seq<bool>
    var currentDepth: nat
    /** logs.log, errors.log and logs.json of the current date directory. */
    var mainLog: seq<string>
    var errorLog: seq<string>
    var jsonLog: seq<JsonEntry>

    /** The stack always covers the current depth. */
    ghost predicate Valid()
      reads this
    {
      currentDepth <= |treeStack|
    }

    constructor ()
      ensures Valid()
      ensures isFirstSection && treeStack == [] && currentDepth == 0
      ensures mainLog == [] && errorLog == [] && jsonLog == []
    {
      isFirstSection := true;
      treeStack := [];
      currentDepth := 0;
      mainLog, errorLog, jsonLog := [], [], [];
    }

    /** `prefix` is the one `get_tree_prefix` draws for this position. */
    ghost predicate PrefixFor(prefix: string, isLast: bool, depthOverride: Option<int>)
      reads this
    {
      var d := if depthOverride.Some? then depthOverride.value else currentDepth;
      (d <= 0 ==> prefix == EndSymbol(isLast))
      && (d > 0 ==> |prefix| == 2 * d + 2 && prefix[2 * d..] == EndSymbol(isLast)
                    && forall i :: 0 <= i < d ==> prefix[2 * i..2 * i + 2] == Segment(treeStack, i))
    }

    /** `reset_tree_structure`. */
    method ResetTreeStructure()
      modifies this`treeStack, this`currentDepth
      ensures Valid()
      ensures treeStack == [] && currentDepth == 0
    {
      treeStack := [];
      currentDepth := 0;
    }

    /** `reset_section_tracking`. */
    method ResetSectionTracking()
      modifies this`isFirstSection
      ensures isFirstSection
    {
      isFirstSection := true;
    }

    /**
     * `get_tree_prefix(is_last_item, depth_override)`: at depth 0 (or
     * below) just the end symbol; at depth d > 0, one two-character
     * segment per level, "│ " where the stack says the level has more
     * siblings and "  " otherwise (also past the stack's end), then the
     * end symbol.
     */
    method GetTreePrefix(isLast: bool, depthOverride: Option<int>) returns (prefix: string)
      ensures var d := if depthOverride.Some? then depthOverride.value else currentDepth;
              (d <= 0 ==> prefix == EndSymbol(isLast))
              && (d > 0 ==> |prefix| == 2 * d + 2 && prefix[2 * d..] == EndSymbol(isLast)
                            && forall i :: 0 <= i < d ==> prefix[2 * i..2 * i + 2] == Segment(treeStack, i))
      ensures PrefixFor(prefix, isLast, depthOverride)
    {
      var depth := if depthOverride.Some? then depthOverride.value else currentDepth;
      if depth == 0 {
        return EndSymbol(isLast);
      }
      prefix := "";
      var i := 0;
      while i < depth
        invariant 0 <= i && (depth > 0 ==> i <= depth) && (depth <= 0 ==> i == 0)
        invariant |prefix| == 2 * i
        invariant forall k :: 0 <= k < i ==> prefix[2 * k..2 * k + 2] == Segment(treeStack, k)
      {
        var seg := if i < |treeStack| then (if treeStack[i] then Pipe else Space) else Space;
        assert seg == Segment(treeStack, i);
        prefix := prefix + seg;
        assert forall k :: 0 <= k < i ==> prefix[2 * k..2 * k + 2] == (prefix[..2 * i])[2 * k..2 * k + 2];
        i := i + 1;
      }
      ghost var body := prefix;
      prefix := prefix + EndSymbol(isLast);
      assert prefix[..2 * i] == body;
    }

    /**
     * `start_tree_section(has_more_siblings)`: record the flag for the
     * current level, overwriting an old entry or appending, and go one
     * level deeper.
     */
    method StartTreeSection(hasMoreSiblings: bool)
      requires Valid()
      modifies this`treeStack, this`currentDepth
      ensures Valid()
      ensures currentDepth == old(currentDepth) + 1
      ensures old(currentDepth) < |old(treeStack)| ==>
                treeStack == old(treeStack)[old(currentDepth) := hasMoreSiblings]
      ensures old(currentDepth) == |old(treeStack)| ==> treeStack == old(treeStack) + [hasMoreSiblings]
    {
      if currentDepth < |treeStack| {
        treeStack := treeStack[currentDepth := hasMoreSiblings];
      } else {
        treeStack := treeStack + [hasMoreSiblings];
      }
      currentDepth := currentDepth + 1;
    }

    /** `end_tree_section`: one level up, never below 0; the stack is kept. */
    method EndTreeSection()
      requires Valid()
      modifies this`currentDepth
      ensures Valid()
      ensures currentDepth == if old(currentDepth) > 0 then old(currentDepth) - 1 else 0
    {
      if currentDepth > 0 {
        currentDepth := currentDepth - 1;
      }
    }

    /**
     * `_write_to_log_files(message, level, category)`: nothing without a
     * log directory; otherwise every message goes to logs.log, the three
     * error levels also to errors.log, and only non-blank messages, once
     * stripped, to logs.json. A blank message is written as a blank line.
     */
    method WriteToLogFiles(message: string, level: string, category: string,
                           timestamp: string, logDirReady: bool)
      modifies this`mainLog, this`errorLog, this`jsonLog
      ensures !logDirReady ==> mainLog == old(mainLog) && errorLog == old(errorLog) && jsonLog == old(jsonLog)
      ensures logDirReady ==>
                mainLog == old(mainLog) + [FileEntry(timestamp, level, message)]
                && errorLog == old(errorLog) + (if IsErrorLevel(level) then [FileEntry(timestamp, level, message)] else [])
                && jsonLog == old(jsonLog) + JsonEntries(timestamp, level, category, message)
    {
      if !logDirReady {
        return;
      }
      var stripped := Strip(message);
      StripEmptyIffBlank(message);
      var entry := if stripped != "" then timestamp + " [" + level + "] " + message + "\n" else "\n";
      mainLog := mainLog + [entry];
      if level == "ERROR" || level == "CRITICAL" || level == "WARNING" {
        errorLog := errorLog + [entry];
      }
      if stripped != "" {
        jsonLog := jsonLog + [JsonEntry(timestamp, level, category, stripped)];
      }
    }

    /**
     * `log_tree_item(key, value, is_last, depth_override)`: one line, the
     * prefix for the requested position followed by `key: value`.
     */
    method LogTreeItem(key: string, value: string, isLast: bool, depthOverride: Option<int>,
                       timestamp: string, logDirReady: bool)
      modifies this`mainLog, this`errorLog, this`jsonLog
      ensures exists prefix ::
                PrefixFor(prefix, isLast, depthOverride)
                && var message := prefix + " " + key + ": " + value;
                   (logDirReady ==> mainLog == old(mainLog) + [FileEntry(timestamp, "INFO", message)]
                                    && jsonLog == old(jsonLog) + JsonEntries(timestamp, "INFO", "tree_item", message))
                   && (!logDirReady ==> mainLog == old(mainLog) && jsonLog == old(jsonLog))
      ensures errorLog == old(errorLog)
    {
      var prefix := GetTreePrefix(isLast, depthOverride);
      var message := prefix + " " + key + ": " + value;
      InfoIsNotErrorLevel();
      WriteToLogFiles(message, "INFO", "tree_item", timestamp, logDirReady);
    }

    /** Writes a run of INFO lines, one after another. */
    method WriteLines(lines: seq<Line>, timestamp: string, logDirReady: bool)
      modifies this`mainLog, this`errorLog, this`jsonLog
      ensures errorLog == old(errorLog)
      ensures !logDirReady ==> mainLog == old(mainLog) && jsonLog == old(jsonLog)
      ensures logDirReady ==> mainLog == old(mainLog) + MainEntries(timestamp, "INFO", lines)
                              && jsonLog == old(jsonLog) + JsonEntriesOf(timestamp, "INFO", lines)
    {
      if !logDirReady {
        return;
      }
      var k := 0;
      while k < |lines|
        invariant 0 <= k <= |lines|
        invariant errorLog == old(errorLog)
        invariant mainLog == old(mainLog) + MainEntries(timestamp, "INFO", lines[..k])
        invariant jsonLog == old(jsonLog) + JsonEntriesOf(timestamp, "INFO", lines[..k])
      {
        EntriesSnoc(old(mainLog), old(jsonLog), timestamp, "INFO", lines, k);
        WriteInfo(lines[k].message, lines[k].category, timestamp);
        k := k + 1;
      }
      assert lines[..k] == lines;
    }

    /** One INFO line into a ready log directory: it never reaches the error log. */
    method WriteInfo(message: string, category: string, timestamp: string)
      modifies this`mainLog, this`errorLog, this`jsonLog
      ensures mainLog == old(mainLog) + [FileEntry(timestamp, "INFO", message)]
      ensures errorLog == old(errorLog)
      ensures jsonLog == old(jsonLog) + JsonEntries(timestamp, "INFO", category, message)
    {
      InfoIsNotErrorLevel();
      WriteToLogFiles(message, "INFO", category, timestamp, true);
    }

    /** The main items of a section, each drawn at depth 0. */
    method MainItemLines(items: seq<(string, string)>, hasNested: bool) returns (lines: seq<Line>)
      ensures lines == MainLines(items, hasNested, |items|)
    {
      lines := [];
      var i := 0;
      while i < |items|
        invariant 0 <= i <= |items|
        invariant lines == MainLines(items, hasNested, i)
      {
        var isLastMain := i == |items| - 1 && !hasNested;
        var prefix := GetTreePrefix(isLastMain, Some(0));
        lines := lines + [Line(prefix + " " + items[i].0 + ": " + items[i].1, "tree_item")];
        i := i + 1;
      }
    }

    /** One nested group: its folder header, then its items. */
    method GroupBlockLines(name: string, groupItems: seq<(string, string)>, isLastGroup: bool)
      returns (lines: seq<Line>)
      ensures lines == [GroupHeaderLine(name, isLastGroup)] + NestedLines(groupItems, isLastGroup, |groupItems|)
    {
      var groupPrefix := GetTreePrefix(isLastGroup, Some(0));
      lines := [Line(groupPrefix + " " + FolderIcon + " " + name, "perfect_tree_nested_group")];
      var j := 0;
      while j < |groupItems|
        invariant 0 <= j <= |groupItems|
        invariant lines == [GroupHeaderLine(name, isLastGroup)] + NestedLines(groupItems, isLastGroup, j)
      {
        var nestedPrefix := (if !isLastGroup then Pipe else Space)
                            + (if j == |groupItems| - 1 then Last else Branch);
        lines := lines + [Line(nestedPrefix + " " + groupItems[j].0 + ": " + groupItems[j].1,
                               "perfect_tree_nested_item")];
        j := j + 1;
      }
    }

    /** All nested groups, the last one drawn as the last branch. */
    method NestedGroupLines(groups: seq<(string, seq<(string, string)>)>) returns (lines: seq<Line>)
      ensures lines == GroupLines(groups, |groups|)
    {
      lines := [];
      var g := 0;
      while g < |groups|
        invariant 0 <= g <= |groups|
        invariant lines == GroupLines(groups, g)
      {
        var block := GroupBlockLines(groups[g].0, groups[g].1, g == |groups| - 1);
        lines := lines + block;
        g := g + 1;
      }
    }

    /**
     * `log_perfect_tree_section(title, items, emoji, nested_groups)`: a
     * spacing line before every section but the first, then the header,
     * the main items and each nested group with its items; the tree stack
     * is reset.
     */
    method LogPerfectTreeSection(title: string, items: seq<(string, string)>, emoji: string,
                                 groups: seq<(string, seq<(string, string)>)>,
                                 timestamp: string, logDirReady: bool)
      modifies this
      ensures Valid()
      ensures !isFirstSection && treeStack == [] && currentDepth == 0
      ensures errorLog == old(errorLog)
      ensures var lines := (if old(isFirstSection) then [] else [Line("", "section_spacing")])
                           + SectionLines(title, items, emoji, groups);
              (logDirReady ==> mainLog == old(mainLog) + MainEntries(timestamp, "INFO", lines)
                               && jsonLog == old(jsonLog) + JsonEntriesOf(timestamp, "INFO", lines))
              && (!logDirReady ==> mainLog == old(mainLog) && jsonLog == old(jsonLog))
    {
      var spacing: seq<Line> := [];
      if !isFirstSection {
        spacing := [Line("", "section_spacing")];
      } else {
        isFirstSection := false;
      }
      ResetTreeStructure();
      var mainLines := MainItemLines(items, |groups| > 0);
      var groupLines := NestedGroupLines(groups);
      var lines := spacing + ([Line(emoji + " " + title, "perfect_tree_section")] + mainLines + groupLines);
      WriteLines(lines, timestamp, logDirReady);
    }
  }

  /**
   * The prefixes the logger's own test expects: root, one level under a
   * level with siblings, two such levels, and back at the root.
   */
  method TreeStructureScenario() returns (prefixes: seq<string>)
    ensures prefixes == [Branch, Last, Pipe + Branch, Pipe + Last, Pipe + Pipe + Branch, Branch]
  {
    var logger := new TreeLogger();
    var p := logger.GetTreePrefix(false, None);
    prefixes := [p];
    p := logger.GetTreePrefix(true, None);
    prefixes := prefixes + [p];
    logger.StartTreeSection(true);
    p := logger.GetTreePrefix(false, None);
    assert p[..2] == Segment(logger.treeStack, 0);
    assert p == Pipe + Branch;
    prefixes := prefixes + [p];
    p := logger.GetTreePrefix(true, None);
    assert p[..2] == Segment(logger.treeStack, 0);
    assert p == Pipe + Last;
    prefixes := prefixes + [p];
    logger.StartTreeSection(true);
    p := logger.GetTreePrefix(false, None);
    assert p[..2] == Segment(logger.treeStack, 0) && p[2..4] == Segment(logger.treeStack, 1);
    assert p == Pipe + Pipe + Branch;
    prefixes := prefixes + [p];
    logger.EndTreeSection();
    logger.EndTreeSection();
    p := logger.GetTreePrefix(false, None);
    prefixes := prefixes + [p];
  }
}

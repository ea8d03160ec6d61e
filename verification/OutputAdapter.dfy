/**
 * The LCD output adapter: lines that may belong to a Markdown table are held
 * back until the table is over, the rest goes out at once, and what goes out is
 * rewritten SGR sequence by SGR sequence.
 *
 * The specification groups the text into a `Page`: items already shown, at most
 * one item still open, and a partial line. The class keeps only what the source
 * keeps, and is proved against the page.
 */
module OutputAdapter {
  import opened Wrappers
  import opened Sequences
  import opened SgrRewriter
  import opened SgrRemap
  import ThemedText

  type Row = seq<string>

  /** The tests on lines, the table layout, the character table and the palette. */
  datatype Rules = Rules(
    nonReply: string -> bool,
    row: string -> Option<Row>,
    separator: string -> bool,
    layout: seq<Row> -> string,
    replacement: char -> string,
    palette: Palette)

  // ---- lines

  /** The characters that end a line for Python's `splitlines`. */
  predicate IsBreak(c: char) {
    c in {'\n', '\r', '\U{0B}', '\U{0C}', '\U{1C}', '\U{1D}', '\U{1E}', '\U{85}', '\U{2028}', '\U{2029}'}
  }

  /** Length of the first line of `s`, its end included; CR LF is one end. */
  function LineLength(s: string): (n: nat)
    requires s != ""
    ensures 1 <= n <= |s|
  {
    if s[0] == '\r' && |s| > 1 && s[1] == '\n' then 2
    else if IsBreak(s[0]) || |s| == 1 then 1
    else 1 + LineLength(s[1..])
  }

  /** `s.splitlines(keepends=True)` */
  function SplitLines(s: string): (lines: seq<string>)
    ensures forall i :: 0 <= i < |lines| ==> lines[i] != ""
    ensures s != "" ==> lines != []
    decreases |s|
  {
    if s == "" then [] else [s[..LineLength(s)]] + SplitLines(s[LineLength(s)..])
  }

  lemma {:induction false} LinesMakeTheText(s: string)
    ensures Flatten(SplitLines(s)) == s
    decreases |s|
  {
    if s != "" {
      var n := LineLength(s);
      LinesMakeTheText(s[n..]);
      assert SplitLines(s)[1..] == SplitLines(s[n..]);
      assert s[..n] + s[n..] == s;
    }
  }

  /**
   * A line holds no line end except at its end, and every line but the last has one;
   * CR and LF together are one line end.
   */
  lemma {:induction false} LinesEndAtBreaks(s: string, i: nat)
    requires i < |SplitLines(s)|
    ensures var lines := SplitLines(s);
            var line, breaks := lines[i], {0x0A, 0x0B, 0x0C, 0x0D, 0x1C, 0x1D, 0x1E, 0x85, 0x2028, 0x2029};
            && (forall j :: 0 <= j < |line| - 1 && line[j] as int in breaks ==>
                  j == |line| - 2 && line[j] == '\r' && line[j + 1] == '\n')
            && (i + 1 < |lines| ==> line[|line| - 1] as int in breaks)
            && (i + 1 < |lines| && line[|line| - 1] == '\r' ==> lines[i + 1][0] != '\n')
    decreases |s|
  {
    var n := LineLength(s);
    LineIs(s);
    if i > 0 {
      LinesEndAtBreaks(s[n..], i - 1);
    }
  }

  lemma {:induction false} LineIs(s: string)
    requires s != ""
    ensures var n, breaks := LineLength(s), {0x0A, 0x0B, 0x0C, 0x0D, 0x1C, 0x1D, 0x1E, 0x85, 0x2028, 0x2029};
            && (forall j :: 0 <= j < n - 1 && s[j] as int in breaks ==>
                  j == n - 2 && s[j] == '\r' && s[j + 1] == '\n')
            && (n < |s| ==> s[n - 1] as int in breaks)
            && (n < |s| && s[n - 1] == '\r' ==> s[n] != '\n')
  {
    BreaksAre(s[0]);
    if LineLength(s) > 1 && s[0] != '\r' {
      LineIs(s[1..]);
    }
  }

  lemma BreaksAre(c: char)
    ensures IsBreak(c) <==> c as int in {0x0A, 0x0B, 0x0C, 0x0D, 0x1C, 0x1D, 0x1E, 0x85, 0x2028, 0x2029}
  {
  }

  /** Only a line that ends in LF or CR is complete. */
  predicate IsCompleteLine(line: string) {
    line != "" && (line[|line| - 1] == '\n' || line[|line| - 1] == '\r')
  }

  /** The complete lines of `s`, and what follows them. */
  function CutTail(s: string): (r: (seq<string>, string)) {
    var lines := SplitLines(s);
    if lines == [] || IsCompleteLine(lines[|lines| - 1]) then (lines, "")
    else (lines[..|lines| - 1], lines[|lines| - 1])
  }

  lemma CutTailKeepsText(s: string)
    ensures Flatten(CutTail(s).0) + CutTail(s).1 == s
  {
    var lines := SplitLines(s);
    LinesMakeTheText(s);
    hide SplitLines;
    if lines != [] {
      FlattenSnoc(lines[..|lines| - 1], lines[|lines| - 1]);
      assert lines[..|lines| - 1] + [lines[|lines| - 1]] == lines;
    }
  }

  // ---- the page

  /** A stretch of ordinary text, or a table: its heading line, separator line and further rows. */
  datatype Item = Text(text: string) | Table(heading: string, separator: string, body: seq<string>)

  datatype Open = Nothing | Heading(line: string) | Grid(heading: string, separator: string, body: seq<string>)

  datatype Page = Page(items: seq<Item>, open: Open, partial: string)

  const BLANK: Page := Page([], Nothing, "")

  function Closing(open: Open): seq<Item> {
    match open
    case Nothing => []
    case Heading(line) => [Text(line)]
    case Grid(heading, separator, body) => [Table(heading, separator, body)]
  }

  function TakeLine(rules: Rules, page: Page, line: string): Page {
    var closed := page.items + Closing(page.open);
    if rules.nonReply(line) then page.(items := closed + [Text(line)], open := Nothing)
    else if page.open.Grid? && rules.row(line).Some? then
      page.(open := page.open.(body := page.open.body + [line]))
    else if page.open.Heading? && rules.separator(line) then
      page.(open := Grid(page.open.line, line, []))
    else if rules.row(line).Some? then page.(items := closed, open := Heading(line))
    else page.(items := closed + [Text(line)], open := Nothing)
  }

  function TakeLines(rules: Rules, page: Page, lines: seq<string>): Page {
    if lines == [] then page
    else TakeLine(rules, TakeLines(rules, page, lines[..|lines| - 1]), lines[|lines| - 1])
  }

  predicate IsRowLine(rules: Rules, line: string) {
    !rules.nonReply(line) && rules.row(line).Some?
  }

  predicate IsSeparatorLine(rules: Rules, line: string) {
    !rules.nonReply(line) && rules.separator(line)
  }

  lemma {:induction false} RowsJoinTable(rules: Rules, page: Page, heading: string, separator: string,
                                         body: seq<string>)
    requires page.open == Grid(heading, separator, [])
    requires forall i :: 0 <= i < |body| ==> IsRowLine(rules, body[i])
    ensures TakeLines(rules, page, body) == page.(open := Grid(heading, separator, body))
  {
    if body != [] {
      var init := body[..|body| - 1];
      RowsJoinTable(rules, page, heading, separator, init);
      assert init + [body[|body| - 1]] == body;
    }
  }

  lemma {:induction false} LinesAppend(rules: Rules, page: Page, a: seq<string>, b: seq<string>)
    ensures TakeLines(rules, page, a + b) == TakeLines(rules, TakeLines(rules, page, a), b)
  {
    hide TakeLine;
    if b == [] {
      assert a + b == a;
    } else {
      assert (a + b)[..|a + b| - 1] == a + b[..|b| - 1];
      LinesAppend(rules, page, a, b[..|b| - 1]);
    }
  }

  lemma TwoLines(rules: Rules, page: Page, first: string, second: string)
    ensures TakeLines(rules, page, [first, second]) == TakeLine(rules, TakeLine(rules, page, first), second)
  {
    hide TakeLine;
    var lines := [first, second];
    assert lines[..1] == [first] && lines[1] == second;
    assert [first][..0] == [] && [first][0] == first;
    assert TakeLines(rules, page, [first]) == TakeLine(rules, page, first);
  }

  /**
   * Every table is recognised: a row line that stands above a separator line, no
   * table or heading being open, makes one with all the row lines that follow; the
   * next line of any other kind ends it.
   */
  lemma TableIsShown(rules: Rules, page: Page, heading: string, separator: string, body: seq<string>, after: string)
    requires page.open == Nothing && IsRowLine(rules, heading) && IsSeparatorLine(rules, separator)
    requires forall i :: 0 <= i < |body| ==> IsRowLine(rules, body[i])
    requires !IsRowLine(rules, after)
    ensures TakeLines(rules, page, [heading, separator] + body + [after])
         == page.(items := page.items + [Table(heading, separator, body), Text(after)], open := Nothing)
  {
    var grid := TakeLines(rules, page, [heading, separator]);
    TwoLines(rules, page, heading, separator);
    assert page.items + [] == page.items;
    RowsJoinTable(rules, grid, heading, separator, body);
    LinesAppend(rules, page, [heading, separator], body);
    LinesAppend(rules, page, [heading, separator] + body, [after]);
    var full := TakeLines(rules, page, [heading, separator] + body);
    assert [after][..0] == [];
    assert TakeLines(rules, full, [after]) == TakeLine(rules, full, after);
    assert page.items + [Table(heading, separator, body)] + [Text(after)]
        == page.items + [Table(heading, separator, body), Text(after)];
  }

  /** A row line above any other line is no heading: it is put out as it is, and the other line read afresh. */
  lemma LoneRowIsText(rules: Rules, page: Page, heading: string, next: string)
    requires page.open == Nothing && IsRowLine(rules, heading) && !IsSeparatorLine(rules, next)
    ensures TakeLines(rules, page, [heading, next])
         == TakeLine(rules, page.(items := page.items + [Text(heading)]), next)
  {
    TwoLines(rules, page, heading, next);
    assert page.items + [] == page.items;
    var out := page.(items := page.items + [Text(heading)]);
    assert out.items + [] == out.items;
  }

  /** Any other line is put out at once. */
  lemma OtherLineIsText(rules: Rules, page: Page, line: string)
    requires page.open == Nothing && !IsRowLine(rules, line)
    ensures TakeLine(rules, page, line) == page.(items := page.items + [Text(line)])
  {
    assert page.items + [] == page.items;
  }

  /** A tail waits for the rest of its line only when that may matter for a table. */
  predicate MustWait(page: Page, tail: string) {
    page.open != Nothing || '|' in StripSgr(tail)
  }

  function TakeTail(page: Page, tail: string): Page {
    if tail == "" then page
    else if MustWait(page, tail) then page.(partial := tail)
    else page.(items := page.items + [Text(tail)])
  }

  function TakeChunk(rules: Rules, page: Page, text: string): Page {
    var cut := CutTail(page.partial + text);
    TakeTail(TakeLines(rules, page.(partial := ""), cut.0), cut.1)
  }

  lemma ChunkByLines(rules: Rules, page: Page, text: string, lines: seq<string>, tail: string)
    requires (lines, tail) == CutTail(page.partial + text)
    ensures var cleared := TakeLines(rules, page.(partial := ""), lines);
            TakeChunk(rules, page, text) == TakeTail(cleared, tail) && cleared.partial == ""
  {
    hide TakeLines, TakeTail, CutTail;
    LinesKeepText(rules, page.(partial := ""), lines);
  }

  function TakeAll(rules: Rules, chunks: seq<string>): Page {
    if chunks == [] then BLANK
    else TakeChunk(rules, TakeAll(rules, chunks[..|chunks| - 1]), chunks[|chunks| - 1])
  }

  // ---- what a page was read from, and what it shows

  function ItemSource(item: Item): string {
    match item
    case Text(text) => text
    case Table(heading, separator, body) => heading + separator + Flatten(body)
  }

  function Sources(items: seq<Item>): string {
    if items == [] then "" else Sources(items[..|items| - 1]) + ItemSource(items[|items| - 1])
  }

  function OpenSource(open: Open): string {
    match open
    case Nothing => ""
    case Heading(line) => line
    case Grid(heading, separator, body) => heading + separator + Flatten(body)
  }

  function RowOf(rules: Rules, line: string): Row {
    match rules.row(line)
    case Some(cells) => cells
    case None => []
  }

  /** The rows of a table: the heading's cells and each further line's. */
  function Rows(rules: Rules, heading: string, body: seq<string>): (rows: seq<Row>)
    ensures |rows| == 1 + |body|
  {
    [RowOf(rules, heading)] + seq(|body|, i requires 0 <= i < |body| => RowOf(rules, body[i]))
  }

  /** A table is laid out from the cells of its heading and of its further rows, in order, the separator left out. */
  lemma TableIsLaidOut(rules: Rules, heading: string, separator: string, body: seq<string>, i: nat)
    requires i < |body| && rules.row(heading).Some? && rules.row(body[i]).Some?
    ensures exists rows: seq<Row> :: ItemShown(rules, Table(heading, separator, body)) == rules.layout(rows)
              && |rows| == 1 + |body| && rows[0] == rules.row(heading).value && rows[1 + i] == rules.row(body[i]).value
  {
    var rows := Rows(rules, heading, body);
    assert ItemShown(rules, Table(heading, separator, body)) == rules.layout(rows);
  }

  function ItemShown(rules: Rules, item: Item): string {
    match item
    case Text(text) => text
    case Table(heading, _, body) => rules.layout(Rows(rules, heading, body))
  }

  function Shown(rules: Rules, items: seq<Item>): string {
    if items == [] then "" else Shown(rules, items[..|items| - 1]) + ItemShown(rules, items[|items| - 1])
  }

  /** A table consists of rows with a separator below the first, and of nothing the rules keep out. */
  ghost predicate IsGrid(rules: Rules, heading: string, separator: string, body: seq<string>) {
    && rules.row(heading).Some? && !rules.nonReply(heading)
    && rules.separator(separator) && !rules.nonReply(separator)
    && (forall i :: 0 <= i < |body| ==> rules.row(body[i]).Some? && !rules.nonReply(body[i]))
  }

  /** Every table on the page was one in the input, and what may become one is held. */
  ghost predicate Genuine(rules: Rules, page: Page) {
    && (forall i :: 0 <= i < |page.items| && page.items[i].Table? ==>
          IsGrid(rules, page.items[i].heading, page.items[i].separator, page.items[i].body))
    && (page.open.Heading? ==> rules.row(page.open.line).Some? && !rules.nonReply(page.open.line))
    && (page.open.Grid? ==> IsGrid(rules, page.open.heading, page.open.separator, page.open.body))
  }

  lemma SourcesSnoc(items: seq<Item>, item: Item)
    ensures Sources(items + [item]) == Sources(items) + ItemSource(item)
  {
    assert (items + [item])[..|items|] == items;
  }

  lemma ShownSnoc(rules: Rules, items: seq<Item>, item: Item)
    ensures Shown(rules, items + [item]) == Shown(rules, items) + ItemShown(rules, item)
  {
    assert (items + [item])[..|items|] == items;
  }

  /** The text a page was read from. */
  function Origin(page: Page): string {
    Sources(page.items) + OpenSource(page.open) + page.partial
  }

  lemma OriginOfText(items: seq<Item>, text: string)
    ensures Origin(Page(items + [Text(text)], Nothing, "")) == Sources(items) + text
  {
    SourcesSnoc(items, Text(text));
  }

  lemma OriginOfClosed(page: Page)
    ensures Sources(page.items + Closing(page.open)) == Sources(page.items) + OpenSource(page.open)
  {
    if page.open == Nothing {
      assert page.items + [] == page.items;
    } else {
      SourcesSnoc(page.items, Closing(page.open)[0]);
    }
  }

  lemma OriginOfGrown(open: Open, line: string)
    requires open.Grid?
    ensures OpenSource(open.(body := open.body + [line])) == OpenSource(open) + line
  {
    FlattenSnoc(open.body, line);
  }

  lemma LineKeepsText(rules: Rules, page: Page, line: string)
    requires page.partial == ""
    ensures TakeLine(rules, page, line).partial == ""
    ensures Origin(TakeLine(rules, page, line)) == Origin(page) + line
  {
    hide Sources, Closing, OpenSource;
    OriginOfClosed(page);
    OriginOfText(page.items + Closing(page.open), line);
    if page.open.Grid? {
      OriginOfGrown(page.open, line);
    }
    OpenSources(page.open, line);
  }

  lemma OpenSources(open: Open, line: string)
    ensures OpenSource(Nothing) == "" && OpenSource(Heading(line)) == line
    ensures open.Heading? ==> OpenSource(Grid(open.line, line, [])) == OpenSource(open) + line
  {
    assert Flatten<char>([]) == [];
  }

  lemma FlattenLast(parts: seq<string>)
    requires parts != []
    ensures Flatten(parts) == Flatten(parts[..|parts| - 1]) + parts[|parts| - 1]
  {
    assert parts[..|parts| - 1] + [parts[|parts| - 1]] == parts;
    FlattenSnoc(parts[..|parts| - 1], parts[|parts| - 1]);
  }

  lemma {:induction false} LinesKeepText(rules: Rules, page: Page, lines: seq<string>)
    requires page.partial == ""
    ensures TakeLines(rules, page, lines).partial == ""
    ensures Origin(TakeLines(rules, page, lines)) == Origin(page) + Flatten(lines)
  {
    if lines == [] {
      assert Origin(page) + [] == Origin(page);
      return;
    }
    hide Origin, TakeLine, Flatten;
    var init, last := lines[..|lines| - 1], lines[|lines| - 1];
    LinesKeepText(rules, page, init);
    LineKeepsText(rules, TakeLines(rules, page, init), last);
    FlattenLast(lines);
    Associative(Origin(page), Flatten(init), last);
  }

  lemma TailKeepsText(page: Page, tail: string)
    requires page.partial == ""
    ensures Origin(TakeTail(page, tail)) == Origin(page) + tail
  {
    hide Sources, StripSgr;
    if tail == "" {
      assert Origin(page) + tail == Origin(page);
    } else if !MustWait(page, tail) {
      OriginOfText(page.items, tail);
      assert Sources(page.items) + "" + "" + tail == Sources(page.items) + tail;
    }
  }

  lemma OriginOfPartial(page: Page, text: string)
    ensures Origin(page.(partial := "")) + (page.partial + text) == Origin(page) + text
  {
    hide Sources, OpenSource;
    var front := Sources(page.items) + OpenSource(page.open);
    assert front + "" == front;
    Associative(front, page.partial, text);
  }

  lemma ChunkKeepsText(rules: Rules, page: Page, text: string)
    ensures Origin(TakeChunk(rules, page, text)) == Origin(page) + text
  {
    hide Origin, CutTail, TakeLines, TakeTail, Flatten;
    var cut := CutTail(page.partial + text);
    var emptied := page.(partial := "");
    CutTailKeepsText(page.partial + text);
    LinesKeepText(rules, emptied, cut.0);
    TailKeepsText(TakeLines(rules, emptied, cut.0), cut.1);
    Associative(Origin(emptied), Flatten(cut.0), cut.1);
    OriginOfPartial(page, text);
  }

  /**
   * For every chunking: the items shown, the open item and the partial line were
   * read from exactly the input, in order; nothing is lost and nothing is read twice.
   */
  lemma {:induction false} NothingIsLost(rules: Rules, chunks: seq<string>)
    ensures Origin(TakeAll(rules, chunks)) == Flatten(chunks)
  {
    if chunks == [] {
      return;
    }
    hide Origin, TakeChunk, Flatten;
    var init, last := chunks[..|chunks| - 1], chunks[|chunks| - 1];
    NothingIsLost(rules, init);
    ChunkKeepsText(rules, TakeAll(rules, init), last);
    FlattenLast(chunks);
  }

  // ---- only real tables are laid out

  lemma LineKeepsGenuine(rules: Rules, page: Page, line: string)
    requires Genuine(rules, page)
    ensures Genuine(rules, TakeLine(rules, page, line))
  {
  }

  lemma {:induction false} LinesKeepGenuine(rules: Rules, page: Page, lines: seq<string>)
    requires Genuine(rules, page)
    ensures Genuine(rules, TakeLines(rules, page, lines))
  {
    hide Genuine, TakeLine;
    if lines != [] {
      LinesKeepGenuine(rules, page, lines[..|lines| - 1]);
      LineKeepsGenuine(rules, TakeLines(rules, page, lines[..|lines| - 1]), lines[|lines| - 1]);
    }
  }

  /** Whatever the chunking, only a heading row directly above a separator line makes a table. */
  lemma {:induction false} TablesAreGenuine(rules: Rules, chunks: seq<string>)
    ensures Genuine(rules, TakeAll(rules, chunks))
  {
    if chunks != [] {
      var page := TakeAll(rules, chunks[..|chunks| - 1]);
      TablesAreGenuine(rules, chunks[..|chunks| - 1]);
      var cut := CutTail(page.partial + chunks[|chunks| - 1]);
      LinesKeepGenuine(rules, page.(partial := ""), cut.0);
      hide CutTail, TakeLines, IsGrid, StripSgr;
    }
  }

  // ---- when there is no table

  ghost predicate NoTable(page: Page) {
    !page.open.Grid? && forall i :: 0 <= i < |page.items| ==> page.items[i].Text?
  }

  lemma {:induction false} TextShowsItself(rules: Rules, items: seq<Item>)
    requires forall i :: 0 <= i < |items| ==> items[i].Text?
    ensures Shown(rules, items) == Sources(items)
  {
    if items != [] {
      TextShowsItself(rules, items[..|items| - 1]);
    }
  }

  /** As long as no table opened, what was shown, the held heading and the held partial line are the input. */
  lemma PlainTextPassesThrough(rules: Rules, chunks: seq<string>)
    requires NoTable(TakeAll(rules, chunks))
    ensures var page := TakeAll(rules, chunks);
            Shown(rules, page.items) + (if page.open.Heading? then page.open.line else "") + page.partial ==
              Flatten(chunks)
  {
    NothingIsLost(rules, chunks);
    TextShowsItself(rules, TakeAll(rules, chunks).items);
  }

  /** A partial line is held only when it could belong to a table. */
  lemma {:induction false} HeldOnlyForTables(rules: Rules, chunks: seq<string>)
    ensures var page := TakeAll(rules, chunks); page.partial != "" ==> MustWait(page, page.partial)
  {
    if chunks != [] {
      var page, last := TakeAll(rules, chunks[..|chunks| - 1]), chunks[|chunks| - 1];
      var cut := CutTail(page.partial + last);
      LinesKeepText(rules, page.(partial := ""), cut.0);
      hide CutTail, TakeLines, StripSgr, Origin;
    }
  }

  lemma {:induction false} OneLine(s: string)
    requires s != "" && forall i :: 0 <= i < |s| - 1 ==> !IsBreak(s[i])
    ensures LineLength(s) == |s| && SplitLines(s) == [s]
  {
    if |s| > 1 {
      assert s[0] != '\r';
      assert forall i :: 0 <= i < |s| - 2 ==> s[1..][i] == s[i + 1];
      OneLine(s[1..]);
    }
    assert s[..|s|] == s && s[|s|..] == "";
  }

  lemma {:induction false} NothingToStrip(s: string)
    requires forall i :: 0 <= i < |s| ==> s[i] != ESC
    ensures StripSgr(s) == s
  {
    if s != "" {
      assert MatchLength(s) == 0;
      NothingToStrip(s[1..]);
      assert [s[0]] + s[1..] == s;
    }
  }

  lemma ChunkOfOneLine(rules: Rules, page: Page, line: string)
    requires page.partial == "" && IsCompleteLine(line) && forall i :: 0 <= i < |line| - 1 ==> !IsBreak(line[i])
    ensures TakeChunk(rules, page, line) == TakeLine(rules, page, line)
  {
    assert "" + line == line;
    OneLine(line);
    hide TakeLine, SplitLines;
    assert [line][..0] == [];
    assert TakeLines(rules, page, []) == page;
  }

  lemma ChunkOfWords(rules: Rules, words: string)
    requires words != "" && '|' !in words && forall i :: 0 <= i < |words| ==> !IsBreak(words[i]) && words[i] != ESC
    ensures TakeChunk(rules, BLANK, words) == Page([Text(words)], Nothing, "")
  {
    assert "" + words == words;
    OneLine(words);
    NothingToStrip(words);
    hide SplitLines, StripSgr;
    assert [words][..0] == [];
    assert !IsBreak(words[|words| - 1]);
    assert CutTail(words) == ([], words);
  }

  lemma FirstChunks(rules: Rules, first: string, second: string)
    ensures TakeAll(rules, [first]) == TakeChunk(rules, BLANK, first)
    ensures TakeAll(rules, [first, second]) == TakeChunk(rules, TakeChunk(rules, BLANK, first), second)
  {
    hide TakeChunk;
    assert [first, second][..1] == [first] && [first][..0] == [];
  }

  // ---- the adapter

  const THEME_PREFIX: string := Sgr(RgbCodes(38, THEME_FG)) + Sgr(RgbCodes(48, THEME_BG))

  function Translate(rules: Rules, text: string): string {
    if text == "" then "" else rules.replacement(text[0]) + Translate(rules, text[1..])
  }

  /** The colours sent ahead of everything are the theme's, foreground first, and nothing visible. */
  lemma PrefixSetsTheme()
    ensures SgrLists(THEME_PREFIX) == [[38, 2, 235, 219, 178], [48, 2, 40, 40, 40]] && StripSgr(THEME_PREFIX) == ""
  {
    hide Sgr, SgrLists, StripSgr;
    var fg, bg := RgbCodes(38, THEME_FG), RgbCodes(48, THEME_BG);
    ThemedText.WrittenNothing();
    ThemedText.WrittenCons(fg, [bg]);
    ThemedText.WrittenCons(bg, []);
    assert [fg] + [bg] == [fg, bg] && [bg] + [] == [bg] && Sgr(bg) + "" == Sgr(bg);
    assert THEME_PREFIX + "" == THEME_PREFIX;
    ThemedText.WrittenIsReadBack([fg, bg], "");
    NothingToRead();
  }

  lemma NothingToRead()
    ensures SgrLists("") == [] && StripSgr("") == ""
  {
  }

  /** Characters are replaced one by one, wherever the text is cut. */
  lemma {:induction false} TranslateAppend(rules: Rules, a: string, b: string)
    ensures Translate(rules, a + b) == Translate(rules, a) + Translate(rules, b)
    ensures |a| == 1 ==> Translate(rules, a) == rules.replacement(a[0])
  {
    if a == "" {
      assert a + b == b;
    } else {
      assert (a + b)[1..] == a[1..] + b && (a + b)[0] == a[0];
      TranslateAppend(rules, a[1..], b);
      if |a| == 1 {
        assert Translate(rules, a[1..]) == "";
      }
    }
  }

  function Rewrite(rules: Rules, gruvbox: bool): string -> string {
    if gruvbox then (raw: string) => RemapForGruvbox(rules.palette, raw) else RemapForLcd
  }

  /** The one-shot rewriting of everything shown, without an incomplete sequence at its end. */
  function OneShot(rules: Rules, gruvbox: bool, shown: string): string {
    var body := SplitTail(shown).body;
    if gruvbox then ThemedOutput(Rewrite(rules, true), THEME_PREFIX, body)
    else Substitute(Rewrite(rules, false), body)
  }

  function OpenShown(rules: Rules, open: Open): string {
    match open
    case Nothing => ""
    case Heading(line) => line
    case Grid(heading, separator, body) => rules.layout(Rows(rules, heading, body))
  }

  lemma ClosingIsShown(rules: Rules, page: Page)
    ensures Shown(rules, page.items + Closing(page.open)) == Shown(rules, page.items) + OpenShown(rules, page.open)
  {
    hide Shown, Rows;
    match page.open
    case Nothing => assert page.items + [] == page.items;
    case Heading(line) => ShownSnoc(rules, page.items, Text(line));
    case Grid(heading, separator, body) => ShownSnoc(rules, page.items, Table(heading, separator, body));
  }

  lemma ShownText(rules: Rules, items: seq<Item>, text: string)
    ensures Shown(rules, items + [Text(text)]) == Shown(rules, items) + text
  {
    ShownSnoc(rules, items, Text(text));
  }

  lemma RowsSnoc(rules: Rules, heading: string, body: seq<string>, line: string)
    ensures Rows(rules, heading, body + [line]) == Rows(rules, heading, body) + [RowOf(rules, line)]
  {
  }

  /** Rewriting what was shown so far and then the rest is rewriting it all. */
  lemma OneShotGrows(rules: Rules, gruvbox: bool, shown: string, more: string)
    ensures var before, after := SplitTail(shown), SplitTail(shown + more);
            var fed := FeedChunk(Rewrite(rules, false), before.tail, more);
            var themed := FeedThemed(Rewrite(rules, true), THEME_PREFIX, before.tail, before.body != "", more);
            && (gruvbox ==>
                  && OneShot(rules, true, shown + more) == OneShot(rules, true, shown) + themed.out
                  && themed.tail == after.tail && themed.started == (after.body != ""))
            && (!gruvbox ==>
                  && OneShot(rules, false, shown + more) == OneShot(rules, false, shown) + fed.out
                  && fed.tail == after.tail)
  {
    var rewrite := Rewrite(rules, gruvbox);
    hide Substitute, SplitTail, IsClosed, Rewrite, THEME_PREFIX;
    var before := SplitTail(shown);
    var body := SplitTail(before.tail + more).body;
    SplitContinues(shown, more);
    BodyCanBeCut(shown, before.tail + more);
    SubstituteCut(rewrite, before.body, body);
    if gruvbox {
      ThemedCut(rewrite, THEME_PREFIX, before.body, body);
    }
  }

  class LcdOutputAdapter {
    const rules: Rules
    const gruvbox: bool
    var pendingTableHeader: Option<(Row, string)>
    var tableRows: Option<seq<Row>>
    var partialLine: string
    var themeTail: string
    var themeStarted: bool
    var compatTail: string

    ghost var page: Page
    ghost var emitted: string

    /** The line state is that of the page: a pending heading and an open table never coexist. */
    ghost predicate TracksLines()
      reads this
    {
      match page.open
      case Nothing => pendingTableHeader == None && tableRows == None
      case Heading(line) => pendingTableHeader == Some((RowOf(rules, line), line)) && tableRows == None
      case Grid(heading, separator, body) => pendingTableHeader == None && tableRows == Some(Rows(rules, heading, body))
    }

    /** What was emitted and held back is the one-shot rewriting of what the page shows. */
    ghost predicate TracksOutput(shown: string)
      reads this
    {
      var whole := SplitTail(shown);
      && emitted == OneShot(rules, gruvbox, shown)
      && (if gruvbox then themeTail == whole.tail && themeStarted == (whole.body != "") else compatTail == whole.tail)
    }

    ghost predicate Valid()
      reads this
    {
      TracksLines() && partialLine == page.partial && TracksOutput(Shown(rules, page.items))
    }

    constructor (rules: Rules, gruvbox: bool)
      ensures Valid() && page == BLANK && emitted == ""
      ensures this.rules == rules && this.gruvbox == gruvbox
    {
      this.rules, this.gruvbox := rules, gruvbox;
      pendingTableHeader, tableRows, partialLine := None, None, "";
      themeTail, themeStarted, compatTail := "", false, "";
      page, emitted := BLANK, "";
    }

    method FlushTableState() returns (out: string)
      requires TracksLines()
      modifies `pendingTableHeader, `tableRows, `page
      ensures page == old(page).(items := old(page.items + Closing(page.open)), open := Nothing)
      ensures TracksLines()
      ensures Shown(rules, page.items) == old(Shown(rules, page.items)) + out
    {
      hide Shown, Rows;
      ClosingIsShown(rules, page);
      out := "";
      if tableRows.Some? {
        out := out + rules.layout(tableRows.value);
        tableRows := None;
      }
      if pendingTableHeader.Some? {
        out := out + pendingTableHeader.value.1;
        pendingTableHeader := None;
      }
      page := page.(items := page.items + Closing(page.open), open := Nothing);
    }

    method ProcessCompleteLine(line: string) returns (out: string)
      requires TracksLines()
      modifies `pendingTableHeader, `tableRows, `page
      ensures page == TakeLine(rules, old(page), line)
      ensures TracksLines()
      ensures Shown(rules, page.items) == old(Shown(rules, page.items)) + out
      decreases if page.open == Nothing then 0 else 1
    {
      hide Shown;
      if rules.nonReply(line) {
        out := FlushTableState();
        ShownText(rules, page.items, line);
        page := page.(items := page.items + [Text(line)]);
        out := out + line;
        return;
      }
      var row := rules.row(line);
      if tableRows.Some? {
        if row.Some? {
          RowsSnoc(rules, page.open.heading, page.open.body, line);
          tableRows := Some(tableRows.value + [row.value]);
          page := page.(open := page.open.(body := page.open.body + [line]));
          return "";
        }
        out := FlushTableState();
        var more := ProcessCompleteLine(line);
        out := out + more;
        return;
      }
      if pendingTableHeader.Some? {
        var (header, original) := pendingTableHeader.value;
        pendingTableHeader := None;
        if rules.separator(line) {
          tableRows := Some([header]);
          assert Rows(rules, original, []) == [header];
          page := page.(open := Grid(original, line, []));
          return "";
        }
        ShownText(rules, page.items, original);
        page := page.(items := page.items + [Text(original)], open := Nothing);
        var more := ProcessCompleteLine(line);
        out := original + more;
        return;
      }
      if row.Some? {
        pendingTableHeader := Some((row.value, line));
        page := page.(open := Heading(line));
        return "";
      }
      ShownText(rules, page.items, line);
      page := page.(items := page.items + [Text(line)]);
      out := line;
    }

    method ProcessLines(lines: seq<string>) returns (out: string)
      requires TracksLines()
      modifies `pendingTableHeader, `tableRows, `page
      ensures page == TakeLines(rules, old(page), lines)
      ensures TracksLines()
      ensures Shown(rules, page.items) == old(Shown(rules, page.items)) + out
    {
      hide Shown, TakeLine, Rows;
      out := "";
      for i := 0 to |lines|
        invariant TracksLines() && page == TakeLines(rules, old(page), lines[..i])
        invariant Shown(rules, page.items) == old(Shown(rules, page.items)) + out
      {
        var more := ProcessCompleteLine(lines[i]);
        assert lines[..i + 1][..i] == lines[..i];
        out := out + more;
      }
      assert lines[..|lines|] == lines;
    }

    method HoldOrEmitTail(tail: string) returns (out: string)
      requires TracksLines() && partialLine == page.partial == ""
      modifies `partialLine, `page
      ensures page == TakeTail(old(page), tail)
      ensures TracksLines() && partialLine == page.partial
      ensures Shown(rules, page.items) == old(Shown(rules, page.items)) + out
    {
      hide Shown, StripSgr;
      out := "";
      if tail != "" {
        if tableRows.Some? || pendingTableHeader.Some? || '|' in StripSgr(tail) {
          partialLine, page := tail, page.(partial := tail);
        } else {
          ShownText(rules, page.items, tail);
          page := page.(items := page.items + [Text(tail)]);
          out := tail;
        }
      }
    }

    method RenderLiveMarkdown(text: string) returns (out: string)
      requires TracksLines() && partialLine == page.partial
      modifies `pendingTableHeader, `tableRows, `partialLine, `page
      ensures page == TakeChunk(rules, old(page), text)
      ensures TracksLines() && partialLine == page.partial
      ensures Shown(rules, page.items) == old(Shown(rules, page.items)) + out
    {
      hide Shown, TakeLines, TakeTail, TakeChunk, SplitLines, Rows, RowOf, IsCompleteLine;
      var pending := partialLine + text;
      partialLine, page := "", page.(partial := "");
      var lines, tail := SplitLines(pending), "";
      if lines != [] && !IsCompleteLine(lines[|lines| - 1]) {
        lines, tail := lines[..|lines| - 1], lines[|lines| - 1];
      }
      ChunkByLines(rules, old(page), text, lines, tail);
      out := ProcessLines(lines);
      var rest := HoldOrEmitTail(tail);
      out := out + rest;
    }

    method ApplyGruvboxTheme(text: string) returns (out: string)
      modifies `themeTail, `themeStarted
      ensures Themed(out, themeTail, themeStarted)
           == FeedThemed(Rewrite(rules, true), THEME_PREFIX, old(themeTail), old(themeStarted), text)
    {
      var split := SplitTail(themeTail + text);
      themeTail := split.tail;
      if split.body == "" {
        return "";
      }
      out := Substitute(Rewrite(rules, true), split.body);
      if !themeStarted {
        out := THEME_PREFIX + out;
        themeStarted := true;
      }
    }

    method ApplyTerminalCompat(text: string) returns (out: string)
      modifies `compatTail
      ensures Streamed(out, compatTail) == FeedChunk(Rewrite(rules, false), old(compatTail), text)
    {
      var split := SplitTail(compatTail + text);
      compatTail := split.tail;
      if split.body == "" {
        return "";
      }
      out := Substitute(Rewrite(rules, false), split.body);
    }

    /**
     * However the text arrives, what goes out is the one-shot rewriting of the
     * page's items, minus the incomplete sequence at their end.
     */
    method Feed(text: string) returns (out: string)
      requires Valid()
      modifies this
      ensures Valid()
      ensures page == if text == "" then old(page) else TakeChunk(rules, old(page), Translate(rules, text))
      ensures emitted == old(emitted) + out
      ensures emitted == OneShot(rules, gruvbox, Shown(rules, page.items))
    {
      hide Shown, TakeChunk, OneShot, SplitTail, Substitute, Translate, THEME_PREFIX;
      if text == "" {
        return "";
      }
      ghost var shown := Shown(rules, page.items);
      out := RenderLiveMarkdown(Translate(rules, text));
      out := Emit(shown, out);
    }

    /** What is newly shown goes out rewritten. */
    method Emit(ghost shown: string, text: string) returns (out: string)
      requires TracksOutput(shown)
      modifies `themeTail, `themeStarted, `compatTail, `emitted
      ensures TracksOutput(shown + text) && emitted == old(emitted) + out
    {
      hide OneShot, SplitTail, Substitute, THEME_PREFIX;
      OneShotGrows(rules, gruvbox, shown, text);
      if gruvbox {
        out := ApplyGruvboxTheme(text);
      } else {
        out := ApplyTerminalCompat(text);
      }
      emitted := emitted + out;
    }
  }
}

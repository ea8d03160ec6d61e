/**
 * For which chunkings of a text the output adapter's page is the one the whole
 * text makes in one call.
 */
module Chunking {
  import opened Sequences
  import opened SgrRewriter
  import opened SgrRemap
  import opened OutputAdapter

  /** Whether `next` goes on with the last line of `before`, CR LF being one line end. */
  predicate Joins(before: string, next: string) {
    && before != "" && next != ""
    && (!IsBreak(before[|before| - 1]) || (before[|before| - 1] == '\r' && next[0] == '\n'))
  }

  /** A line that the adapter holds back when no table is open. */
  predicate Held(rules: Rules, line: string) {
    !rules.nonReply(line) && rules.row(line).Some?
  }

  /** The next complete line of the chunk is no table separator, so a heading held before it is let go. */
  predicate LetsGo(rules: Rules, rest: string) {
    var lines := CutTail(rest).0;
    lines != [] && (rules.nonReply(lines[0]) || !rules.separator(lines[0]))
  }

  /**
   * The cut after `before` does no harm: it falls between two lines, or inside a
   * line the adapter still holds; or it falls inside a line that was let out and
   * neither the rest of it nor the whole line is held, or only until the next
   * line. Between CR and LF, the line before must not have been held, or only as
   * a heading and until the next line.
   */
  predicate CutAgrees(rules: Rules, page: Page, before: string, next: string) {
    page.partial != "" || !Joins(before, next) ||
    (var rest := next[LineLength(next)..];
     var first := next[..LineLength(next)];
     if before[|before| - 1] == '\r' then page.open == Nothing || (page.open.Heading? && LetsGo(rules, rest))
     else if rest == "" && !IsCompleteLine(first) then '|' !in first
     else (!Held(rules, first) && !Held(rules, Last(SplitLines(before)) + first)) || LetsGo(rules, rest))
  }

  function With(rules: Rules, layout: seq<Row> -> string): Rules {
    rules.(layout := layout)
  }

  /** The same is held, and for every table layout the same was put out. */
  ghost predicate Alike(rules: Rules, a: Page, b: Page) {
    && a.open == b.open && a.partial == b.partial
    && forall layout :: Shown(With(rules, layout), a.items) == Shown(With(rules, layout), b.items)
  }

  /** What the whole text makes in one call. */
  function Whole(rules: Rules, text: string): Page {
    TakeChunk(rules, BLANK, text)
  }

  /** After every chunk, the adapter has put out and holds what it would for the text so far in one call. */
  ghost predicate ChunkingIsIrrelevant(rules: Rules, chunks: seq<string>) {
    forall i :: 0 <= i <= |chunks| ==> Alike(rules, TakeAll(rules, chunks[..i]), Whole(rules, Flatten(chunks[..i])))
  }

  ghost predicate CutsAgree(rules: Rules, chunks: seq<string>) {
    forall i :: 0 <= i < |chunks| ==>
      CutAgrees(rules, TakeAll(rules, chunks[..i]), Flatten(chunks[..i]), chunks[i])
  }

  /**
   * What the adapter's tests on lines have in common: a row has a bar, LF after
   * CR makes no difference, and an empty line is nothing special.
   */
  ghost predicate TestsAreUsual(rules: Rules) {
    && (forall line :: rules.row(line).Some? ==> '|' in line)
    && (forall line :: line != "" && line[|line| - 1] == '\r' ==> IgnoresLineFeed(rules, line))
    && !rules.nonReply("\n") && rules.row("\n").None? && !rules.separator("\n")
  }

  predicate IgnoresLineFeed(rules: Rules, line: string) {
    && rules.nonReply(line + "\n") == rules.nonReply(line)
    && rules.row(line + "\n") == rules.row(line)
    && rules.separator(line + "\n") == rules.separator(line)
  }

  // ---- lines of a concatenation

  predicate IsOneLine(line: string) {
    line != "" && LineLength(line) == |line|
  }

  /** The first line of `a`, unless it is all of `a`, is the first line of `a + b`. */
  lemma {:induction false} FirstLineStays(a: string, b: string)
    requires a != "" && LineLength(a) < |a|
    ensures LineLength(a + b) == LineLength(a)
  {
    var s := a + b;
    assert s[0] == a[0] && s[1] == a[1];
    if !(a[0] == '\r' && a[1] == '\n') && !IsBreak(a[0]) {
      assert s[1..] == a[1..] + b;
      FirstLineStays(a[1..], b);
    }
  }

  /** A line with an end of its own is the first line of whatever follows it. */
  lemma {:induction false} EndedLineStays(line: string, b: string)
    requires IsOneLine(line) && b != "" && !Joins(line, b)
    ensures LineLength(line + b) == |line|
  {
    var s := line + b;
    assert s[0] == line[0] && s[1] == if |line| > 1 then line[1] else b[0];
    if |line| > 1 && !IsBreak(line[0]) {
      assert s[1..] == line[1..] + b;
      EndedLineStays(line[1..], b);
    }
  }

  /** A line without one goes on with the first line of what follows. */
  lemma {:induction false} JoinedLine(line: string, b: string)
    requires IsOneLine(line) && Joins(line, b)
    ensures LineLength(line + b) == |line| + LineLength(b)
  {
    var s := line + b;
    assert s[0] == line[0] && s[1] == if |line| > 1 then line[1] else b[0];
    assert s[1..] == line[1..] + b;
    if |line| > 1 {
      JoinedLine(line[1..], b);
    } else {
      assert line[1..] + b == b;
    }
  }

  function Last(lines: seq<string>): string
    requires lines != []
  {
    lines[|lines| - 1]
  }

  /** The last line of a text is one line and ends as the text does. */
  lemma {:induction false} LastLine(a: string)
    requires a != ""
    ensures IsOneLine(Last(SplitLines(a)))
    ensures a[|a| - 1] == Last(SplitLines(a))[|Last(SplitLines(a))| - 1]
    decreases |a|
  {
    var n := LineLength(a);
    assert SplitLines(a) == [a[..n]] + SplitLines(a[n..]);
    if n == |a| {
      assert a[..n] == a && a[n..] == "";
    } else {
      LastLine(a[n..]);
    }
  }

  lemma SplitOneLine(line: string)
    requires IsOneLine(line)
    ensures SplitLines(line) == [line]
  {
    assert line[..|line|] == line && line[|line|..] == "";
  }

  /** Only the last line of `a` may change when `b` follows. */
  lemma {:induction false} SplitAppend(a: string, b: string)
    requires a != ""
    ensures var lines := SplitLines(a);
            SplitLines(a + b) == lines[..|lines| - 1] + SplitLines(Last(lines) + b)
    decreases |a|
  {
    hide LineLength;
    var n := LineLength(a);
    if n == |a| {
      SplitOneLine(a);
    } else {
      FirstLineStays(a, b);
      SplitAppend(a[n..], b);
      FirstOfSplit(a, a + b, n, n);
      assert (a + b)[..n] == a[..n] && (a + b)[n..] == a[n..] + b;
      MoveFirst(a[..n], SplitLines(a[n..]), SplitLines(Last(SplitLines(a[n..])) + b));
    }
  }

  lemma FirstOfSplit(a: string, s: string, n: nat, m: nat)
    requires a != "" && s != "" && n == LineLength(a) && m == LineLength(s)
    ensures SplitLines(a) == [a[..n]] + SplitLines(a[n..])
    ensures SplitLines(s) == [s[..m]] + SplitLines(s[m..])
  {
  }

  lemma MoveFirst(first: string, lines: seq<string>, more: seq<string>)
    requires lines != []
    ensures var all := [first] + lines;
            && all[..|all| - 1] + more == [first] + (lines[..|lines| - 1] + more)
            && Last(all) == Last(lines)
  {
    var all := [first] + lines;
    assert all[..|all| - 1] == [first] + lines[..|lines| - 1];
  }

  /** Between lines, the lines of both are the lines of the whole. */
  lemma SplitBetween(a: string, b: string)
    requires a != "" && b != "" && !Joins(a, b)
    ensures SplitLines(a + b) == SplitLines(a) + SplitLines(b)
  {
    var lines := SplitLines(a);
    var last := Last(lines);
    SplitAppend(a, b);
    LastLine(a);
    EndedLineStays(last, b);
    FirstOfBoth(last, b);
    hide SplitLines, LineLength;
    assert lines[..|lines| - 1] + [last] == lines;
    assert lines[..|lines| - 1] + ([last] + SplitLines(b)) == lines[..|lines| - 1] + [last] + SplitLines(b);
  }

  lemma FirstOfBoth(line: string, b: string)
    requires line != "" && LineLength(line + b) == |line|
    ensures SplitLines(line + b) == [line] + SplitLines(b)
  {
    assert (line + b)[..|line|] == line && (line + b)[|line|..] == b;
  }

  // ---- what a page holds

  lemma CutTailIsOneLine(s: string)
    ensures var tail := CutTail(s).1;
            tail != "" ==> IsOneLine(tail) && !IsCompleteLine(tail) && s != "" && tail == Last(SplitLines(s))
  {
    if s != "" {
      LastLine(s);
    }
  }

  lemma HeldIsTheTail(rules: Rules, page: Page, text: string)
    ensures var held := TakeChunk(rules, page, text).partial;
            held != "" ==> held == CutTail(page.partial + text).1
  {
    LinesKeepText(rules, page.(partial := ""), CutTail(page.partial + text).0);
    hide CutTail, TakeLines, StripSgr;
  }

  // ---- harmless cuts change nothing

  lemma {:induction false} BarsStay(s: string)
    requires '|' in s
    ensures '|' in StripSgr(s)
    decreases |s|
  {
    var n := MatchLength(s);
    if n > 0 {
      assert '|' !in s[..n] by {
        assert forall i :: 2 <= i < n - 1 ==> IsParam(s[i]);
      }
      assert s == s[..n] + s[n..];
      BarsStay(s[n..]);
      StripNext(s, n);
    } else {
      StripNext(s, 0);
      if s[0] != '|' {
        assert s == [s[0]] + s[1..];
        BarsStay(s[1..]);
      }
    }
  }

  lemma StripNext(s: string, n: nat)
    requires s != "" && n == MatchLength(s)
    ensures StripSgr(s) == if n > 0 then StripSgr(s[n..]) else [s[0]] + StripSgr(s[1..])
  {
    hide MatchLength;
    if n > 0 {
      assert "" + StripSgr(s[n..]) == StripSgr(s[n..]);
    }
  }

  /** A tail that goes out at once is what it would be as a line. */
  lemma TailAsLine(rules: Rules, page: Page, tail: string)
    requires TestsAreUsual(rules) && tail != "" && !MustWait(page, tail)
    ensures TakeTail(page, tail) == TakeLine(rules, page, tail)
  {
    if '|' in tail {
      BarsStay(tail);
    }
    hide StripSgr;
    assert rules.row(tail).None?;
    assert page.items + [] == page.items;
  }

  /** An empty chunk changes nothing of a page that holds one line or none. */
  lemma NothingMore(rules: Rules, page: Page)
    requires page.partial != "" ==>
               IsOneLine(page.partial) && !IsCompleteLine(page.partial) && MustWait(page, page.partial)
    ensures TakeChunk(rules, page, "") == page
  {
    assert page.partial + "" == page.partial;
    hide StripSgr;
    if page.partial != "" {
      SplitOneLine(page.partial);
      hide SplitLines;
      assert [page.partial][..0] == [];
    }
    assert TakeLines(rules, page.(partial := ""), []) == page.(partial := "");
  }

  /** The cut falls inside the line that is held. */
  lemma GoesOnInside(rules: Rules, a: string, b: string)
    requires a != "" && b != "" && Whole(rules, a).partial != ""
    ensures TakeChunk(rules, Whole(rules, a), b) == Whole(rules, a + b)
  {
    var page := Whole(rules, a);
    HeldIsTheTail(rules, BLANK, a);
    assert "" + a == a && "" + (a + b) == a + b;
    SplitAppend(a, b);
    var lines, tail := CutTail(a).0, CutTail(a).1;
    CutTailAppend(lines, tail, b, a + b);
    LinesKeepText(rules, BLANK, lines);
    LinesAppend(rules, BLANK, lines, CutTail(tail + b).0);
    hide SplitLines, CutTail, TakeLines, StripSgr;
    assert page.(partial := "") == TakeLines(rules, BLANK, lines);
  }

  lemma CutTailAppend(front: seq<string>, rest: string, more: string, s: string)
    requires more != "" && SplitLines(s) == front + SplitLines(rest + more)
    ensures CutTail(s) == (front + CutTail(rest + more).0, CutTail(rest + more).1)
  {
    var lines := SplitLines(rest + more);
    hide SplitLines;
    assert (front + lines)[|front + lines| - 1] == lines[|lines| - 1];
    assert (front + lines)[..|front + lines| - 1] == front + lines[..|lines| - 1];
  }

  /** With nothing held, the page is what all lines make, the last one too. */
  lemma AllLinesTaken(rules: Rules, a: string)
    requires TestsAreUsual(rules) && a != "" && Whole(rules, a).partial == ""
    ensures Whole(rules, a) == TakeLines(rules, BLANK, SplitLines(a))
  {
    assert "" + a == a;
    var lines := SplitLines(a);
    var cut := CutTail(a);
    LinesKeepText(rules, BLANK, cut.0);
    if cut.1 != "" {
      var page := TakeLines(rules, BLANK, cut.0);
      assert !MustWait(page, cut.1);
      TailAsLine(rules, page, cut.1);
      hide TakeLine, SplitLines, StripSgr;
      assert TakeLines(rules, BLANK, lines) == TakeLine(rules, page, cut.1);
    }
  }

  /** The cut falls between two lines. */
  lemma GoesOnBetween(rules: Rules, a: string, b: string)
    requires TestsAreUsual(rules) && a != "" && b != ""
    requires Whole(rules, a).partial == "" && !Joins(a, b)
    ensures TakeChunk(rules, Whole(rules, a), b) == Whole(rules, a + b)
  {
    AllLinesTaken(rules, a);
    SplitBetween(a, b);
    assert "" + b == b && "" + (a + b) == a + b;
    CutTailAppend(SplitLines(a), "", b, a + b);
    LinesAppend(rules, BLANK, SplitLines(a), CutTail(b).0);
    hide SplitLines, CutTail, TakeLines, TakeTail;
  }

  // ---- what lines put out, for any layout

  /** What closing the open item puts out. */
  function ClosingOut(rules: Rules, layout: seq<Row> -> string, open: Open): string {
    match open
    case Nothing => ""
    case Heading(line) => line
    case Grid(heading, _, body) => layout(Rows(rules, heading, body))
  }

  /** What a line puts out, and the item open after it. */
  datatype Result = Result(out: string, open: Open)

  function GoLine(rules: Rules, layout: seq<Row> -> string, open: Open, line: string): Result {
    var closed := ClosingOut(rules, layout, open);
    if rules.nonReply(line) then Result(closed + line, Nothing)
    else if open.Grid? && rules.row(line).Some? then Result("", open.(body := open.body + [line]))
    else if open.Heading? && rules.separator(line) then Result("", Grid(open.line, line, []))
    else if rules.row(line).Some? then Result(closed, Heading(line))
    else Result(closed + line, Nothing)
  }

  function Go(rules: Rules, layout: seq<Row> -> string, open: Open, lines: seq<string>): Result
    decreases |lines|
  {
    if lines == [] then Result("", open)
    else
      var first := GoLine(rules, layout, open, lines[0]);
      var more := Go(rules, layout, first.open, lines[1..]);
      Result(first.out + more.out, more.open)
  }

  lemma {:induction false} ShownAppend(rules: Rules, a: seq<Item>, b: seq<Item>)
    ensures Shown(rules, a + b) == Shown(rules, a) + Shown(rules, b)
  {
    hide ItemShown;
    if b == [] {
      assert a + b == a;
    } else {
      assert (a + b)[..|a + b| - 1] == a + b[..|b| - 1];
      ShownAppend(rules, a, b[..|b| - 1]);
    }
  }

  lemma ShownClosing(rules: Rules, layout: seq<Row> -> string, open: Open)
    ensures Shown(With(rules, layout), Closing(open)) == ClosingOut(rules, layout, open)
  {
    var lay := With(rules, layout);
    if open != Nothing {
      var item := Closing(open)[0];
      assert Closing(open) == [] + [item];
      ShownSnoc(lay, [], item);
      assert open.Grid? ==> Rows(lay, open.heading, open.body) == Rows(rules, open.heading, open.body);
    }
  }

  lemma LineGoes(rules: Rules, layout: seq<Row> -> string, page: Page, line: string)
    ensures var next := TakeLine(rules, page, line);
            var went := GoLine(rules, layout, page.open, line);
            && Shown(With(rules, layout), next.items) == Shown(With(rules, layout), page.items) + went.out
            && next.open == went.open && next.partial == page.partial
  {
    var lay := With(rules, layout);
    var closed := page.items + Closing(page.open);
    ShownAppend(lay, page.items, Closing(page.open));
    ShownClosing(rules, layout, page.open);
    ShownSnoc(lay, closed, Text(line));
    hide Shown, Closing, ClosingOut, With;
    Associate(Shown(lay, page.items), ClosingOut(rules, layout, page.open), line);
    assert Shown(lay, page.items) + "" == Shown(lay, page.items);
  }

  lemma Associate(a: string, b: string, c: string)
    ensures a + b + c == a + (b + c)
  {
  }

  lemma {:induction false} LinesGo(rules: Rules, layout: seq<Row> -> string, page: Page, lines: seq<string>)
    ensures var next := TakeLines(rules, page, lines);
            var went := Go(rules, layout, page.open, lines);
            && Shown(With(rules, layout), next.items) == Shown(With(rules, layout), page.items) + went.out
            && next.open == went.open && next.partial == page.partial
    decreases |lines|
  {
    hide TakeLine, GoLine, Shown, With;
    var lay := With(rules, layout);
    if lines == [] {
      assert Shown(lay, page.items) + "" == Shown(lay, page.items);
    } else {
      TakeFirst(rules, page, lines);
      var next := TakeLine(rules, page, lines[0]);
      LineGoes(rules, layout, page, lines[0]);
      LinesGo(rules, layout, next, lines[1..]);
      Associate(Shown(lay, page.items), GoLine(rules, layout, page.open, lines[0]).out,
                Go(rules, layout, next.open, lines[1..]).out);
    }
  }

  lemma TakeFirst(rules: Rules, page: Page, lines: seq<string>)
    requires lines != []
    ensures TakeLines(rules, page, lines) == TakeLines(rules, TakeLine(rules, page, lines[0]), lines[1..])
  {
    hide TakeLine;
    LinesAppend(rules, page, [lines[0]], lines[1..]);
    assert [lines[0]] + lines[1..] == lines && [lines[0]][..0] == [];
    assert TakeLines(rules, page, [lines[0]]) == TakeLine(rules, page, lines[0]);
  }

  /** What a tail puts out depends on the open item alone. */
  lemma TailGoes(rules: Rules, layout: seq<Row> -> string, page: Page, tail: string)
    requires page.partial == ""
    ensures var next := TakeTail(page, tail);
            var held := page.open != Nothing || '|' in StripSgr(tail);
            && next.open == page.open && next.partial == (if held then tail else "")
            && Shown(With(rules, layout), next.items) ==
                 Shown(With(rules, layout), page.items) + if held then "" else tail
  {
    hide StripSgr, Shown, With;
    ShownSnoc(With(rules, layout), page.items, Text(tail));
    assert Shown(With(rules, layout), page.items) + "" == Shown(With(rules, layout), page.items);
  }

  // ---- pages that are alike stay alike

  lemma LinesKeepAlike(rules: Rules, a: Page, b: Page, lines: seq<string>)
    requires Alike(rules, a, b)
    ensures Alike(rules, TakeLines(rules, a, lines), TakeLines(rules, b, lines))
  {
    hide TakeLines, Go, Shown, With;
    forall layout
      ensures Shown(With(rules, layout), TakeLines(rules, a, lines).items) ==
                Shown(With(rules, layout), TakeLines(rules, b, lines).items)
    {
      LinesGo(rules, layout, a, lines);
      LinesGo(rules, layout, b, lines);
    }
    LinesGo(rules, rules.layout, a, lines);
    LinesGo(rules, rules.layout, b, lines);
  }

  lemma TailKeepsAlike(rules: Rules, a: Page, b: Page, tail: string)
    requires Alike(rules, a, b) && a.partial == ""
    ensures Alike(rules, TakeTail(a, tail), TakeTail(b, tail))
  {
    hide TakeTail, StripSgr, Shown, With;
    forall layout
      ensures Shown(With(rules, layout), TakeTail(a, tail).items) ==
                Shown(With(rules, layout), TakeTail(b, tail).items)
    {
      TailGoes(rules, layout, a, tail);
      TailGoes(rules, layout, b, tail);
    }
    TailGoes(rules, rules.layout, a, tail);
    TailGoes(rules, rules.layout, b, tail);
  }

  /** The lines and then the tail. */
  function TakeRest(rules: Rules, page: Page, lines: seq<string>, tail: string): Page {
    TakeTail(TakeLines(rules, page, lines), tail)
  }

  lemma RestKeepsAlike(rules: Rules, a: Page, b: Page, lines: seq<string>, tail: string)
    requires Alike(rules, a, b) && a.partial == ""
    ensures Alike(rules, TakeRest(rules, a, lines, tail), TakeRest(rules, b, lines, tail))
  {
    LinesKeepAlike(rules, a, b, lines);
    LinesKeepText(rules, a, lines);
    hide TakeLines, TakeTail, Alike;
    TailKeepsAlike(rules, TakeLines(rules, a, lines), TakeLines(rules, b, lines), tail);
  }

  lemma ChunkKeepsAlike(rules: Rules, a: Page, b: Page, text: string)
    requires Alike(rules, a, b)
    ensures Alike(rules, TakeChunk(rules, a, text), TakeChunk(rules, b, text))
  {
    hide Shown, With, CutTail, TakeLines, TakeTail;
    var cut := CutTail(a.partial + text);
    RestKeepsAlike(rules, a.(partial := ""), b.(partial := ""), cut.0, cut.1);
  }

  lemma AlikeIsEquivalence(rules: Rules, a: Page, b: Page, c: Page)
    requires Alike(rules, a, b)
    ensures Alike(rules, a, c) <==> Alike(rules, b, c)
  {
    hide Shown, With;
  }

  // ---- pages that are not alike

  /**
   * Two pages that were read from the same text, one of them holding a heading
   * that the other has put out or holds in part.
   */
  ghost predicate Twins(rules: Rules, a: Page, b: Page) {
    && !a.open.Grid? && !b.open.Grid? && OpenSource(a.open) != OpenSource(b.open)
    && a.partial == b.partial == ""
    && forall layout ::
         Shown(With(rules, layout), a.items) + OpenSource(a.open) ==
           Shown(With(rules, layout), b.items) + OpenSource(b.open)
  }

  lemma OpenStays(rules: Rules, page: Page, lines: seq<string>, tail: string)
    requires page.partial == ""
    ensures TakeRest(rules, page, lines, tail).open == TakeLines(rules, page, lines).open
  {
  }

  /** A line that is no separator makes them alike. */
  lemma TwinsMeet(rules: Rules, a: Page, b: Page, line: string)
    requires Twins(rules, a, b) && (rules.nonReply(line) || !rules.separator(line))
    ensures Alike(rules, TakeLine(rules, a, line), TakeLine(rules, b, line))
  {
    hide TakeLine, Shown, With;
    forall layout
      ensures Shown(With(rules, layout), TakeLine(rules, a, line).items) ==
                Shown(With(rules, layout), TakeLine(rules, b, line).items)
    {
      LineGoes(rules, layout, a, line);
      LineGoes(rules, layout, b, line);
      var x, y := Shown(With(rules, layout), a.items), Shown(With(rules, layout), b.items);
      Associate(x, OpenSource(a.open), line);
      Associate(y, OpenSource(b.open), line);
    }
    LineGoes(rules, rules.layout, a, line);
    LineGoes(rules, rules.layout, b, line);
  }

  /** An open table puts nothing out until it is over, and then its layout first. */
  lemma {:induction false} GridGoes(rules: Rules, layout: seq<Row> -> string, open: Open, lines: seq<string>, c: char)
    requires open.Grid? && forall rows :: |rows| > |open.body| ==> layout(rows) == [c]
    ensures var went := Go(rules, layout, open, lines);
            if went.out == "" then went.open.Grid? else went.out[0] == c
    decreases |lines|
  {
    if lines == [] {
      return;
    }
    var first := GoLine(rules, layout, open, lines[0]);
    if first.open.Grid? {
      GridGoes(rules, layout, first.open, lines[1..], c);
      var more := Go(rules, layout, first.open, lines[1..]);
      assert "" + more.out == more.out;
    } else {
      assert layout(Rows(rules, open.heading, open.body)) == [c];
    }
  }

  lemma RestGoes(rules: Rules, layout: seq<Row> -> string, page: Page, lines: seq<string>, tail: string)
    requires page.partial == ""
    ensures var went := Go(rules, layout, page.open, lines);
            var held := went.open != Nothing || '|' in StripSgr(tail);
            var next := TakeRest(rules, page, lines, tail);
            && next.open == went.open
            && Shown(With(rules, layout), next.items) ==
                 Shown(With(rules, layout), page.items) + (went.out + if held then "" else tail)
  {
    hide TakeLines, TakeTail, Go, Shown, With, StripSgr;
    LinesGo(rules, layout, page, lines);
    var after := TakeLines(rules, page, lines);
    TailGoes(rules, layout, after, tail);
    var went := Go(rules, layout, page.open, lines);
    Associate(Shown(With(rules, layout), page.items), went.out,
              if went.open != Nothing || '|' in StripSgr(tail) then "" else tail);
  }

  /**
   * One page has an open table where the other has put out text that begins
   * differently from the table's layout, or has put out more: they stay apart.
   */
  lemma GridStaysApart(rules: Rules, layout: seq<Row> -> string, a: Page, b: Page, more: string, c: char,
                       lines: seq<string>, tail: string)
    requires a.partial == b.partial == "" && a.open.Grid?
    requires forall rows :: |rows| > |a.open.body| ==> layout(rows) == [c]
    requires Shown(With(rules, layout), b.items) == Shown(With(rules, layout), a.items) + more
    requires more != "" && more[0] != c
    ensures !Alike(rules, TakeRest(rules, a, lines, tail), TakeRest(rules, b, lines, tail))
  {
    RestGoes(rules, layout, a, lines, tail);
    RestGoes(rules, layout, b, lines, tail);
    GridGoes(rules, layout, a.open, lines, c);
    hide TakeRest, Go, Shown, StripSgr;
    var x := Shown(With(rules, layout), a.items);
    var p, q := TakeRest(rules, a, lines, tail), TakeRest(rules, b, lines, tail);
    var out := Shown(With(rules, layout), p.items);
    assert Shown(With(rules, layout), q.items)[|x|] == more[0];
    assert |out| == |x| || out[|x|] == c;
  }

  function Other(c: char): (d: char)
    ensures d != c
  {
    if c == 'a' then 'b' else 'a'
  }

  lemma NextLine(rules: Rules, page: Page, line: string, lines: seq<string>, tail: string)
    ensures TakeRest(rules, page, [line] + lines, tail) == TakeRest(rules, TakeLine(rules, page, line), lines, tail)
  {
    hide TakeLine, TakeTail;
    TakeFirst(rules, page, [line] + lines);
    assert ([line] + lines)[1..] == lines;
  }

  lemma LineKeepsPartial(rules: Rules, page: Page, line: string)
    ensures TakeLine(rules, page, line).partial == page.partial
  {
  }

  /** The page that holds more has put out less. */
  lemma Surplus(x: string, p: string, y: string, q: string)
    requires x + p == y + q && |p| > |q|
    ensures y == x + p[..|p| - |q|]
  {
    assert y == (y + q)[..|y|] == (x + p)[..|y|];
  }

  /** If a separator follows, the heading held makes a table, and the pages stay apart. */
  lemma HeadingParts(rules: Rules, a: Page, b: Page, line: string, lines: seq<string>, tail: string)
    requires Twins(rules, a, b) && |OpenSource(a.open)| > |OpenSource(b.open)|
    requires !rules.nonReply(line) && rules.separator(line)
    ensures !Alike(rules, TakeRest(rules, a, [line] + lines, tail), TakeRest(rules, b, [line] + lines, tail))
  {
    hide With, Shown, TakeRest;
    var h, k := a.open.line, |a.open.line| - |OpenSource(b.open)|;
    var c := Other(h[0]);
    var layout := (rows: seq<Row>) => [c];
    var out := GoLine(rules, layout, b.open, line).out;
    LineGoes(rules, layout, a, line);
    LineGoes(rules, layout, b, line);
    var x, y := Shown(With(rules, layout), a.items), Shown(With(rules, layout), b.items);
    Surplus(x, h, y, OpenSource(b.open));
    Associate(x, h[..k], out);
    assert x + "" == x;
    LineKeepsPartial(rules, a, line);
    LineKeepsPartial(rules, b, line);
    NextLine(rules, a, line, lines, tail);
    NextLine(rules, b, line, lines, tail);
    GridStaysApart(rules, layout, TakeLine(rules, a, line), TakeLine(rules, b, line), h[..k] + out, c, lines, tail);
  }

  lemma AlikeBothWays(rules: Rules, a: Page, b: Page)
    ensures Alike(rules, a, b) <==> Alike(rules, b, a)
  {
    hide Shown, With;
  }

  lemma SameEnds(x: string, p: string, y: string, q: string)
    requires x + p == y + q && |p| == |q|
    ensures p == q
  {
    assert p == (x + p)[|x|..] && q == (y + q)[|y|..];
  }

  lemma TwinsPart(rules: Rules, a: Page, b: Page, line: string, lines: seq<string>, tail: string)
    requires Twins(rules, a, b) && !rules.nonReply(line) && rules.separator(line)
    ensures !Alike(rules, TakeRest(rules, a, [line] + lines, tail), TakeRest(rules, b, [line] + lines, tail))
  {
    hide With, Shown, TakeRest, OpenSource, Alike;
    AlikeBothWays(rules, TakeRest(rules, a, [line] + lines, tail), TakeRest(rules, b, [line] + lines, tail));
    if |OpenSource(a.open)| > |OpenSource(b.open)| {
      HeadingParts(rules, a, b, line, lines, tail);
    } else {
      var x, y := Shown(With(rules, rules.layout), a.items), Shown(With(rules, rules.layout), b.items);
      assert x + OpenSource(a.open) == y + OpenSource(b.open);
      if |OpenSource(a.open)| == |OpenSource(b.open)| {
        SameEnds(x, OpenSource(a.open), y, OpenSource(b.open));
        assert false;
      }
      HeadingParts(rules, b, a, line, lines, tail);
    }
  }

  /** Twins become alike exactly when a further line comes that is no separator. */
  lemma TwinsMeetIff(rules: Rules, a: Page, b: Page, lines: seq<string>, tail: string)
    requires Twins(rules, a, b)
    ensures Alike(rules, TakeRest(rules, a, lines, tail), TakeRest(rules, b, lines, tail)) <==>
              lines != [] && (rules.nonReply(lines[0]) || !rules.separator(lines[0]))
  {
    hide With, Shown, TakeLine;
    if lines == [] {
      OpenStays(rules, a, lines, tail);
      OpenStays(rules, b, lines, tail);
      return;
    }
    hide TakeRest;
    assert lines == [lines[0]] + lines[1..];
    if rules.nonReply(lines[0]) || !rules.separator(lines[0]) {
      NextLine(rules, a, lines[0], lines[1..], tail);
      NextLine(rules, b, lines[0], lines[1..], tail);
      TwinsMeet(rules, a, b, lines[0]);
      LineKeepsPartial(rules, a, lines[0]);
      RestKeepsAlike(rules, TakeLine(rules, a, lines[0]), TakeLine(rules, b, lines[0]), lines[1..], tail);
    } else {
      TwinsPart(rules, a, b, lines[0], lines[1..], tail);
    }
  }

  // ---- a cut inside a line that was let out

  /** The lines on either side of a cut inside a line. */
  lemma SplitJoined(a: string, b: string)
    requires Joins(a, b)
    ensures var lines := SplitLines(a);
            var n := LineLength(b);
            && SplitLines(b) == [b[..n]] + SplitLines(b[n..])
            && SplitLines(a + b) == lines[..|lines| - 1] + ([Last(lines) + b[..n]] + SplitLines(b[n..]))
  {
    hide SplitLines, LineLength;
    var last := Last(SplitLines(a));
    var n := LineLength(b);
    SplitAppend(a, b);
    LastLine(a);
    JoinsLast(a, last, b);
    JoinedLine(last, b);
    FirstOfSplit(last + b, b, |last| + n, n);
    assert (last + b)[..|last| + n] == last + b[..n] && (last + b)[|last| + n..] == b[n..];
  }

  lemma JoinsLast(a: string, last: string, b: string)
    requires Joins(a, b) && last != "" && last[|last| - 1] == a[|a| - 1]
    ensures Joins(last, b)
  {
  }

  /** A line in front of the rest is complete, or followed by more, or the tail. */
  lemma CutTailNext(s: string, front: seq<string>, line: string, rest: string)
    requires line != "" && SplitLines(s) == front + ([line] + SplitLines(rest))
    ensures CutTail(s) == if rest == "" && !IsCompleteLine(line) then (front, line)
                          else (front + ([line] + CutTail(rest).0), CutTail(rest).1)
  {
    var lines := SplitLines(s);
    var more := SplitLines(rest);
    hide SplitLines;
    if rest == "" {
      NothingToSplit();
      assert lines == front + [line];
      assert lines[..|lines| - 1] == front;
    } else {
      assert lines[|lines| - 1] == more[|more| - 1];
      assert lines[..|lines| - 1] == front + ([line] + more[..|more| - 1]);
    }
  }

  lemma NothingToSplit()
    ensures SplitLines("") == [] && CutTail("") == ([], "")
  {
  }

  lemma RestAppend(rules: Rules, front: seq<string>, line: string, lines: seq<string>, tail: string)
    ensures TakeRest(rules, BLANK, front + ([line] + lines), tail) ==
              TakeRest(rules, TakeLine(rules, TakeLines(rules, BLANK, front), line), lines, tail)
  {
    LinesAppend(rules, BLANK, front, [line] + lines);
    NextLine(rules, TakeLines(rules, BLANK, front), line, lines, tail);
    hide TakeLine, TakeLines, TakeTail;
  }

  /** What the rest of the line makes alone, and the line whole, for a layout. */
  lemma SameSource(rules: Rules, layout: seq<Row> -> string, page: Page, front: string, first: string)
    requires page.open == Nothing
    ensures var out := page.(items := page.items + [Text(front)]);
            var a, b := TakeLine(rules, out, first), TakeLine(rules, page, front + first);
            Shown(With(rules, layout), a.items) + OpenSource(a.open) ==
              Shown(With(rules, layout), b.items) + OpenSource(b.open)
  {
    hide Shown, With, TakeLine;
    var out := page.(items := page.items + [Text(front)]);
    var x := Shown(With(rules, layout), page.items);
    ShownSnoc(With(rules, layout), page.items, Text(front));
    LineGoes(rules, layout, out, first);
    LineGoes(rules, layout, page, front + first);
    OutAndOpen(rules, layout, first);
    OutAndOpen(rules, layout, front + first);
    var r, w := GoLine(rules, layout, Nothing, first), GoLine(rules, layout, Nothing, front + first);
    hide GoLine, OpenSource;
    Associate(x + front, r.out, OpenSource(r.open));
    Associate(x, w.out, OpenSource(w.open));
    Associate(x, front, first);
  }

  lemma OutAndOpen(rules: Rules, layout: seq<Row> -> string, line: string)
    ensures var went := GoLine(rules, layout, Nothing, line); went.out + OpenSource(went.open) == line
  {
    assert "" + line == line && line + "" == line;
  }

  lemma OpenFromNothing(rules: Rules, page: Page, line: string)
    requires page.open == Nothing
    ensures TakeLine(rules, page, line).open == if Held(rules, line) then Heading(line) else Nothing
  {
  }

  lemma NothingOpen(rules: Rules, layout: seq<Row> -> string, a: Page, b: Page)
    requires a.open == b.open == Nothing
    requires Shown(With(rules, layout), a.items) + OpenSource(a.open) ==
               Shown(With(rules, layout), b.items) + OpenSource(b.open)
    ensures Shown(With(rules, layout), a.items) == Shown(With(rules, layout), b.items)
  {
    hide Shown, With;
    var x, y := Shown(With(rules, layout), a.items), Shown(With(rules, layout), b.items);
    assert x + "" == x && y + "" == y;
  }

  /** The rest of the line read alone, and the line read whole. */
  lemma LineLetOut(rules: Rules, page: Page, front: string, first: string)
    requires page.open == Nothing && page.partial == "" && front != "" && first != ""
    ensures var out := page.(items := page.items + [Text(front)]);
            var a, b := TakeLine(rules, out, first), TakeLine(rules, page, front + first);
            if Held(rules, first) || Held(rules, front + first) then Twins(rules, a, b) else Alike(rules, a, b)
  {
    hide TakeLine, Held, Shown, With;
    var out := page.(items := page.items + [Text(front)]);
    var a, b := TakeLine(rules, out, first), TakeLine(rules, page, front + first);
    OpenFromNothing(rules, out, first);
    OpenFromNothing(rules, page, front + first);
    LineKeepsPartial(rules, out, first);
    LineKeepsPartial(rules, page, front + first);
    assert |front + first| > |first|;
    forall layout
      ensures Shown(With(rules, layout), a.items) + OpenSource(a.open) ==
                Shown(With(rules, layout), b.items) + OpenSource(b.open)
      ensures a.open == b.open == Nothing ==>
                Shown(With(rules, layout), a.items) == Shown(With(rules, layout), b.items)
    {
      SameSource(rules, layout, page, front, first);
      if a.open == b.open == Nothing {
        NothingOpen(rules, layout, a, b);
      }
    }
  }

  lemma BarsIff(s: string)
    ensures '|' in s <==> '|' in StripSgr(s)
  {
    if '|' in s {
      BarsStay(s);
    }
    if '|' !in s {
      NoNewBars(s);
    }
  }

  lemma {:induction false} NoNewBars(s: string)
    requires '|' !in s
    ensures '|' !in StripSgr(s)
    decreases |s|
  {
    hide StripSgr, MatchLength;
    if s == "" {
      NothingStripped();
    } else {
      var n := MatchLength(s);
      StripNext(s, n);
      NoNewBars(s[if n > 0 then n else 1..]);
    }
  }

  lemma NothingStripped()
    ensures StripSgr("") == ""
  {
  }

  /** The rest of the line as a tail, and the whole line as a tail. */
  lemma TailLetOut(rules: Rules, page: Page, front: string, tail: string)
    requires page.open == Nothing && page.partial == "" && front != "" && tail != "" && '|' !in front
    ensures Alike(rules, TakeTail(page.(items := page.items + [Text(front)]), tail), TakeTail(page, front + tail)) <==>
              '|' !in tail
  {
    var out := page.(items := page.items + [Text(front)]);
    BarsIff(tail);
    BarsIff(front + tail);
    hide StripSgr, Shown, With;
    forall layout
      ensures '|' !in tail ==> Shown(With(rules, layout), TakeTail(out, tail).items) ==
                                 Shown(With(rules, layout), TakeTail(page, front + tail).items)
    {
      ShownSnoc(With(rules, layout), page.items, Text(front));
      ShownSnoc(With(rules, layout), out.items, Text(tail));
      ShownSnoc(With(rules, layout), page.items, Text(front + tail));
      Associate(Shown(With(rules, layout), page.items), front, tail);
    }
  }

  /** The page of a text whose last line was let out before its end. */
  lemma LetOutPage(rules: Rules, a: string)
    requires a != "" && !IsBreak(a[|a| - 1]) && Whole(rules, a).partial == ""
    ensures var lines := SplitLines(a);
            var page := TakeLines(rules, BLANK, lines[..|lines| - 1]);
            && page.open == Nothing && page.partial == "" && '|' !in Last(lines) && Last(lines) != ""
            && Whole(rules, a) == page.(items := page.items + [Text(Last(lines))])
  {
    assert "" + a == a;
    var lines := SplitLines(a);
    LastLine(a);
    LinesKeepText(rules, BLANK, lines[..|lines| - 1]);
    BarsIff(Last(lines));
    hide SplitLines, TakeLines, StripSgr;
    assert CutTail(a) == (lines[..|lines| - 1], Last(lines));
  }

  /** A chunk that goes on inside a line, and the whole text, line by line. */
  lemma JoinedCuts(rules: Rules, a: string, b: string)
    requires Joins(a, b) && Whole(rules, a).partial == ""
    ensures var lines := SplitLines(a);
            var page := TakeLines(rules, BLANK, lines[..|lines| - 1]);
            var first, rest := b[..LineLength(b)], b[LineLength(b)..];
            var more, tail := CutTail(rest).0, CutTail(rest).1;
            rest != "" || IsCompleteLine(first) ==>
              && TakeChunk(rules, Whole(rules, a), b) ==
                   TakeRest(rules, TakeLine(rules, Whole(rules, a), first), more, tail)
              && Whole(rules, a + b) ==
                   TakeRest(rules, TakeLine(rules, page, Last(lines) + first), more, tail)
  {
    hide SplitLines, LineLength, TakeLine, TakeLines, TakeTail;
    var lines := SplitLines(a);
    var front, last := lines[..|lines| - 1], Last(lines);
    var first, rest := b[..LineLength(b)], b[LineLength(b)..];
    SplitJoined(a, b);
    if rest != "" || IsCompleteLine(first) {
      assert last + first != "" && (IsCompleteLine(first) <==> IsCompleteLine(last + first));
      assert [] + ([first] + SplitLines(rest)) == [first] + SplitLines(rest);
      CutTailNext(b, [], first, rest);
      CutTailNext(a + b, front, last + first, rest);
      hide CutTail;
      var more, tail := CutTail(rest).0, CutTail(rest).1;
      assert [] + ([first] + more) == [first] + more;
      assert "" + b == b && "" + (a + b) == a + b;
      NextLine(rules, Whole(rules, a), first, more, tail);
      RestAppend(rules, front, last + first, more, tail);
    }
  }

  lemma CutInLetOut(rules: Rules, a: string, b: string)
    requires Joins(a, b) && !IsBreak(a[|a| - 1]) && Whole(rules, a).partial == ""
    ensures Alike(rules, TakeChunk(rules, Whole(rules, a), b), Whole(rules, a + b)) <==>
              CutAgrees(rules, Whole(rules, a), a, b)
  {
    hide Whole, TakeChunk, TakeRest, SplitLines, LineLength, TakeLines, TakeLine, TakeTail, Alike, Twins, Held, CutTail;
    var lines := SplitLines(a);
    var page, last := TakeLines(rules, BLANK, lines[..|lines| - 1]), Last(lines);
    var first, rest := b[..LineLength(b)], b[LineLength(b)..];
    LetOutPage(rules, a);
    if rest == "" && !IsCompleteLine(first) {
      JoinedTails(rules, a, b);
      TailLetOut(rules, page, last, first);
    } else {
      var more, tail := CutTail(rest).0, CutTail(rest).1;
      JoinedCuts(rules, a, b);
      LineLetOut(rules, page, last, first);
      var x, y := TakeLine(rules, Whole(rules, a), first), TakeLine(rules, page, last + first);
      LineKeepsPartial(rules, Whole(rules, a), first);
      if Held(rules, first) || Held(rules, last + first) {
        TwinsMeetIff(rules, x, y, more, tail);
      } else {
        RestKeepsAlike(rules, x, y, more, tail);
      }
    }
  }

  /** The same where the line goes on to the end of the chunk and further. */
  lemma JoinedTails(rules: Rules, a: string, b: string)
    requires Joins(a, b) && Whole(rules, a).partial == ""
    requires b[LineLength(b)..] == "" && !IsCompleteLine(b[..LineLength(b)])
    ensures var lines := SplitLines(a);
            && TakeChunk(rules, Whole(rules, a), b) == TakeTail(Whole(rules, a), b[..LineLength(b)])
            && Whole(rules, a + b) ==
                 TakeTail(TakeLines(rules, BLANK, lines[..|lines| - 1]), Last(lines) + b[..LineLength(b)])
  {
    hide SplitLines, LineLength, TakeLines, TakeTail;
    var lines := SplitLines(a);
    var front, last := lines[..|lines| - 1], Last(lines);
    var first := b[..LineLength(b)];
    SplitJoined(a, b);
    assert last + first != "" && !IsCompleteLine(last + first);
    assert [] + ([first] + SplitLines("")) == [first] + SplitLines("");
    CutTailNext(b, [], first, "");
    CutTailNext(a + b, front, last + first, "");
    hide CutTail;
    assert "" + b == b && "" + (a + b) == a + b;
    NoLines(rules, Whole(rules, a));
  }

  lemma NoLines(rules: Rules, page: Page)
    ensures TakeLines(rules, page, []) == page
  {
  }

  // ---- a cut between CR and LF

  /** A line that ends in CR, and with LF, put out and open the same, LF aside. */
  lemma LineFeedGoes(rules: Rules, layout: seq<Row> -> string, open: Open, line: string)
    requires IgnoresLineFeed(rules, line)
    ensures var a, b := GoLine(rules, layout, open, line), GoLine(rules, layout, open, line + "\n");
            && (a.open.Grid? <==> b.open.Grid?) && (a.open.Heading? <==> b.open.Heading?)
            && (a.open == Nothing ==> b.out == a.out + "\n")
            && (a.open.Heading? ==> a.out == b.out && a.open == Heading(line) && b.open == Heading(line + "\n"))
            && (a.open.Grid? ==>
                  && a.out == b.out == "" && |a.open.body| == |b.open.body|
                  && Rows(rules, a.open.heading, a.open.body) == Rows(rules, b.open.heading, b.open.body))
  {
    var a, b := GoLine(rules, layout, open, line), GoLine(rules, layout, open, line + "\n");
    var closed := ClosingOut(rules, layout, open);
    hide ClosingOut;
    assert closed + (line + "\n") == closed + line + "\n";
  }

  lemma LineFeedIsPlain(rules: Rules, layout: seq<Row> -> string, open: Open)
    requires !rules.nonReply("\n") && rules.row("\n").None? && !rules.separator("\n")
    ensures GoLine(rules, layout, open, "\n") == Result(ClosingOut(rules, layout, open) + "\n", Nothing)
  {
  }

  /** LF read as a line of its own after CR, and with the line; for a layout. */
  lemma LineFeedShows(rules: Rules, layout: seq<Row> -> string, page: Page, line: string)
    requires TestsAreUsual(rules) && line != "" && line[|line| - 1] == '\r'
    ensures var first := TakeLine(rules, page, line);
            var a, b := TakeLine(rules, first, "\n"), TakeLine(rules, page, line + "\n");
            && a.open == Nothing && a.partial == b.partial == page.partial
            && (b.open == Nothing <==> first.open == Nothing)
            && (first.open == Nothing ==>
                  Shown(With(rules, layout), a.items) == Shown(With(rules, layout), b.items))
            && (first.open.Heading? ==>
                  && b.open == Heading(line + "\n")
                  && Shown(With(rules, layout), a.items) == Shown(With(rules, layout), b.items) + (line + "\n"))
            && (first.open.Grid? ==>
                  && b.open.Grid? && |b.open.body| == |first.open.body|
                  && Shown(With(rules, layout), a.items) ==
                       Shown(With(rules, layout), b.items)
                       + (layout(Rows(rules, b.open.heading, b.open.body)) + "\n"))
  {
    assert IgnoresLineFeed(rules, line);
    hide TakeLine, GoLine, Shown, With, IgnoresLineFeed;
    var first := TakeLine(rules, page, line);
    LineGoes(rules, layout, page, line);
    LineGoes(rules, layout, page, line + "\n");
    LineGoes(rules, layout, first, "\n");
    LineFeedGoes(rules, layout, page.open, line);
    LineFeedIsPlain(rules, layout, first.open);
    var x := Shown(With(rules, layout), page.items);
    var out := GoLine(rules, layout, page.open, line).out;
    assert "" + "\n" == "\n";
    Associate(x, out, "\n");
    Associate(x, out, ClosingOut(rules, layout, first.open) + "\n");
  }

  lemma LineFeedAlone(rules: Rules, page: Page, line: string)
    requires TestsAreUsual(rules) && page.partial == "" && line != "" && line[|line| - 1] == '\r'
    ensures var first := TakeLine(rules, page, line);
            var a, b := TakeLine(rules, first, "\n"), TakeLine(rules, page, line + "\n");
            && (first.open == Nothing ==> Alike(rules, a, b))
            && (first.open.Heading? ==> Twins(rules, a, b))
  {
    hide TakeLine, Shown, With, TestsAreUsual;
    var first := TakeLine(rules, page, line);
    var a, b := TakeLine(rules, first, "\n"), TakeLine(rules, page, line + "\n");
    LineFeedShows(rules, rules.layout, page, line);
    forall layout
      ensures first.open == Nothing ==>
                Shown(With(rules, layout), a.items) == Shown(With(rules, layout), b.items)
      ensures first.open.Heading? ==>
                Shown(With(rules, layout), a.items) + OpenSource(a.open) ==
                  Shown(With(rules, layout), b.items) + OpenSource(b.open)
    {
      LineFeedShows(rules, layout, page, line);
      assert Shown(With(rules, layout), a.items) + "" == Shown(With(rules, layout), a.items);
    }
  }

  /** After the same lines from the same open item, pages that put out different lengths do so still. */
  lemma LengthsStayApart(rules: Rules, layout: seq<Row> -> string, a: Page, b: Page, lines: seq<string>, tail: string)
    requires a.partial == b.partial == "" && a.open == b.open
    requires |Shown(With(rules, layout), a.items)| != |Shown(With(rules, layout), b.items)|
    ensures !Alike(rules, TakeRest(rules, a, lines, tail), TakeRest(rules, b, lines, tail))
  {
    RestGoes(rules, layout, a, lines, tail);
    RestGoes(rules, layout, b, lines, tail);
    hide TakeRest, Go, Shown, With, StripSgr;
    var p, q := TakeRest(rules, a, lines, tail), TakeRest(rules, b, lines, tail);
    assert |Shown(With(rules, layout), p.items)| != |Shown(With(rules, layout), q.items)|;
  }

  /** The layout of one table tells how many rows it has. */
  function ByRows(n: nat): seq<Row> -> string {
    (rows: seq<Row>) => if |rows| > n then "b" else "a"
  }

  /** LF alone ends a table that CR LF leaves open: the pages stay apart, whatever follows. */
  lemma LineFeedEndsTable(rules: Rules, page: Page, line: string, lines: seq<string>, tail: string)
    requires TestsAreUsual(rules) && page.partial == "" && line != "" && line[|line| - 1] == '\r'
    requires TakeLine(rules, page, line).open.Grid?
    ensures var a, b := TakeLine(rules, TakeLine(rules, page, line), "\n"), TakeLine(rules, page, line + "\n");
            !Alike(rules, TakeRest(rules, a, lines, tail), TakeRest(rules, b, lines, tail))
  {
    hide TakeLine, Shown, With, TestsAreUsual, Alike, TakeRest, ByRows;
    var a, b := TakeLine(rules, TakeLine(rules, page, line), "\n"), TakeLine(rules, page, line + "\n");
    var layout := ByRows(|TakeLine(rules, page, line).open.body| + 1);
    LineFeedShows(rules, layout, page, line);
    if lines == [] {
      OpensDiffer(rules, a, b, tail);
    } else {
      var next, more := lines[0], lines[1..];
      assert lines == [next] + more;
      NextLine(rules, a, next, more, tail);
      NextLine(rules, b, next, more, tail);
      TableGoesOn(rules, layout, a, b, next, more, tail);
    }
  }

  lemma OpensDiffer(rules: Rules, a: Page, b: Page, tail: string)
    requires a.partial == b.partial == "" && a.open != b.open
    ensures !Alike(rules, TakeRest(rules, a, [], tail), TakeRest(rules, b, [], tail))
  {
    OpenStays(rules, a, [], tail);
    OpenStays(rules, b, [], tail);
    hide With, Shown;
  }

  /** A further row makes the table longer; any other line ends it without the LF. */
  lemma TableGoesOn(rules: Rules, layout: seq<Row> -> string, a: Page, b: Page, line: string,
                    lines: seq<string>, tail: string)
    requires a.partial == b.partial == "" && a.open == Nothing && b.open.Grid?
    requires layout == ByRows(|b.open.body| + 1)
    requires Shown(With(rules, layout), a.items) ==
               Shown(With(rules, layout), b.items) + (layout(Rows(rules, b.open.heading, b.open.body)) + "\n")
    ensures !Alike(rules, TakeRest(rules, TakeLine(rules, a, line), lines, tail),
                   TakeRest(rules, TakeLine(rules, b, line), lines, tail))
  {
    hide TakeRest, TakeLine, Shown, With, Alike;
    var x, y := TakeLine(rules, a, line), TakeLine(rules, b, line);
    var s := Shown(With(rules, layout), b.items);
    LineGoes(rules, layout, a, line);
    LineGoes(rules, layout, b, line);
    LineKeepsPartial(rules, a, line);
    LineKeepsPartial(rules, b, line);
    var out := GoLine(rules, layout, Nothing, line).out;
    if y.open.Grid? {
      Associate(s, "a" + "\n", out);
      assert s + "" == s;
      AlikeBothWays(rules, TakeRest(rules, x, lines, tail), TakeRest(rules, y, lines, tail));
      GridStaysApart(rules, layout, y, x, "a" + "\n" + out, 'b', lines, tail);
    } else {
      LengthsStayApart(rules, layout, x, y, lines, tail);
    }
  }

  /** The page of a text that ends in CR. */
  lemma LineEndPage(rules: Rules, a: string)
    requires a != "" && a[|a| - 1] == '\r'
    ensures var lines := SplitLines(a);
            var page := TakeLines(rules, BLANK, lines[..|lines| - 1]);
            && page.partial == "" && Last(lines) != "" && Last(lines)[|Last(lines)| - 1] == '\r'
            && Whole(rules, a) == TakeLine(rules, page, Last(lines)) && Whole(rules, a).partial == ""
  {
    assert "" + a == a;
    var lines := SplitLines(a);
    LastLine(a);
    LinesKeepText(rules, BLANK, lines[..|lines| - 1]);
    hide SplitLines, TakeLine;
    assert CutTail(a) == (lines, "");
    LineKeepsPartial(rules, TakeLines(rules, BLANK, lines[..|lines| - 1]), Last(lines));
  }

  lemma CutInLineEnd(rules: Rules, a: string, b: string)
    requires TestsAreUsual(rules) && Joins(a, b) && a[|a| - 1] == '\r'
    ensures Alike(rules, TakeChunk(rules, Whole(rules, a), b), Whole(rules, a + b)) <==>
              CutAgrees(rules, Whole(rules, a), a, b)
  {
    assert LineLength(b) == 1 && b[..1] == "\n";
    hide Whole, TakeChunk, TakeRest, SplitLines, LineLength, TakeLines, TakeLine, Alike, Twins, Held, TestsAreUsual,
         CutTail;
    var lines := SplitLines(a);
    var page, last := TakeLines(rules, BLANK, lines[..|lines| - 1]), Last(lines);
    var more, tail := CutTail(b[1..]).0, CutTail(b[1..]).1;
    LineEndPage(rules, a);
    JoinedCuts(rules, a, b);
    LineFeedAlone(rules, page, last);
    var x, y := TakeLine(rules, Whole(rules, a), "\n"), TakeLine(rules, page, last + "\n");
    LineKeepsPartial(rules, Whole(rules, a), "\n");
    if Whole(rules, a).open == Nothing {
      RestKeepsAlike(rules, x, y, more, tail);
    } else if Whole(rules, a).open.Heading? {
      TwinsMeetIff(rules, x, y, more, tail);
    } else {
      LineFeedEndsTable(rules, page, last, more, tail);
    }
  }

  // ---- every cut

  lemma HeldByWhole(rules: Rules, a: string)
    ensures var page := Whole(rules, a);
            page.partial != "" ==>
              IsOneLine(page.partial) && !IsCompleteLine(page.partial) && MustWait(page, page.partial) && a != ""
  {
    hide CutTail, StripSgr, TakeLines, LineLength;
    assert "" + a == a;
    HeldIsTheTail(rules, BLANK, a);
    CutTailIsOneLine(a);
    LinesKeepText(rules, BLANK, CutTail(a).0);
    NothingToSplit();
  }

  lemma AlikeItself(rules: Rules, a: Page)
    ensures Alike(rules, a, a)
  {
  }

  /** For the page of the text so far, a further chunk does what the longer text would exactly at such a cut. */
  lemma CutStep(rules: Rules, a: string, b: string)
    requires TestsAreUsual(rules)
    ensures Alike(rules, TakeChunk(rules, Whole(rules, a), b), Whole(rules, a + b)) <==>
              CutAgrees(rules, Whole(rules, a), a, b)
  {
    hide Whole, TakeChunk, MustWait, LineLength, Alike, Held, LetsGo, SplitLines, TestsAreUsual;
    var page := Whole(rules, a);
    HeldByWhole(rules, a);
    AlikeItself(rules, Whole(rules, a + b));
    if a == "" || b == "" {
      NothingMore(rules, page);
      EmptyEnds(rules, a, b);
    } else if page.partial != "" {
      GoesOnInside(rules, a, b);
    } else if !Joins(a, b) {
      GoesOnBetween(rules, a, b);
    } else if a[|a| - 1] == '\r' {
      CutInLineEnd(rules, a, b);
    } else {
      CutInLetOut(rules, a, b);
    }
  }

  lemma EmptyEnds(rules: Rules, a: string, b: string)
    ensures b == "" ==> a + b == a
    ensures a == "" ==> a + b == b && Whole(rules, a) == BLANK && Whole(rules, b) == TakeChunk(rules, BLANK, b)
  {
    NothingToSplit();
    assert "" + "" == "";
    NoLines(rules, BLANK);
    hide SplitLines, StripSgr;
  }

  lemma IrrelevantSnoc(rules: Rules, chunks: seq<string>)
    requires chunks != []
    ensures ChunkingIsIrrelevant(rules, chunks) <==>
              ChunkingIsIrrelevant(rules, chunks[..|chunks| - 1])
              && Alike(rules, TakeAll(rules, chunks), Whole(rules, Flatten(chunks)))
  {
    hide Alike, Whole, TakeChunk;
    var init := chunks[..|chunks| - 1];
    assert chunks[..|chunks|] == chunks && init[..|init|] == init;
    assert forall i :: 0 <= i <= |init| ==> init[..i] == chunks[..i];
    if ChunkingIsIrrelevant(rules, chunks) {
      forall i | 0 <= i <= |init|
        ensures Alike(rules, TakeAll(rules, init[..i]), Whole(rules, Flatten(init[..i])))
      {
        assert Alike(rules, TakeAll(rules, chunks[..i]), Whole(rules, Flatten(chunks[..i])));
      }
    }
  }

  lemma CutsAgreeSnoc(rules: Rules, chunks: seq<string>)
    requires chunks != []
    ensures var init, last := chunks[..|chunks| - 1], chunks[|chunks| - 1];
            CutsAgree(rules, chunks) <==>
              CutsAgree(rules, init) && CutAgrees(rules, TakeAll(rules, init), Flatten(init), last)
  {
    hide CutAgrees, TakeChunk;
    var init := chunks[..|chunks| - 1];
    assert forall i :: 0 <= i < |init| ==> init[..i] == chunks[..i] && init[i] == chunks[i];
    if CutsAgree(rules, chunks) {
      forall i | 0 <= i < |init|
        ensures CutAgrees(rules, TakeAll(rules, init[..i]), Flatten(init[..i]), init[i])
      {
        assert CutAgrees(rules, TakeAll(rules, chunks[..i]), Flatten(chunks[..i]), chunks[i]);
      }
    }
  }

  /** What the condition says depends on what the page holds alone. */
  lemma AlikeAgree(rules: Rules, a: Page, b: Page, before: string, next: string)
    requires Alike(rules, a, b)
    ensures CutAgrees(rules, a, before, next) <==> CutAgrees(rules, b, before, next)
  {
    hide Shown, With;
  }

  /**
   * After every chunk the adapter holds what it would hold for the text so far in
   * one call, and has put out the same whatever the table layout, exactly when
   * every cut is one of those that do no harm.
   */
  lemma {:induction false} ChunkingIsIrrelevantIff(rules: Rules, chunks: seq<string>)
    requires TestsAreUsual(rules)
    ensures ChunkingIsIrrelevant(rules, chunks) <==> CutsAgree(rules, chunks)
  {
    hide ChunkingIsIrrelevant, CutsAgree, CutAgrees, Alike, TakeChunk, Flatten, TestsAreUsual, Whole;
    if chunks == [] {
      NoChunks(rules);
      return;
    }
    var init, last := chunks[..|chunks| - 1], chunks[|chunks| - 1];
    ChunkingIsIrrelevantIff(rules, init);
    IrrelevantSnoc(rules, chunks);
    CutsAgreeSnoc(rules, chunks);
    FlattenLast(chunks);
    if ChunkingIsIrrelevant(rules, init) {
      var page, whole := TakeAll(rules, init), Whole(rules, Flatten(init));
      LastIsAlike(rules, init);
      CutStep(rules, Flatten(init), last);
      AlikeAgree(rules, page, whole, Flatten(init), last);
      ChunkKeepsAlike(rules, page, whole, last);
      AlikeIsEquivalence(rules, TakeChunk(rules, page, last), TakeChunk(rules, whole, last),
                         Whole(rules, Flatten(chunks)));
    }
  }

  lemma NoChunks(rules: Rules)
    ensures ChunkingIsIrrelevant(rules, []) && CutsAgree(rules, [])
  {
    EmptyEnds(rules, "", "");
    AlikeItself(rules, BLANK);
    hide Alike, Whole;
    var chunks: seq<string> := [];
    assert chunks[..0] == [] && Flatten(chunks) == "";
  }

  lemma LastIsAlike(rules: Rules, chunks: seq<string>)
    requires ChunkingIsIrrelevant(rules, chunks)
    ensures Alike(rules, TakeAll(rules, chunks), Whole(rules, Flatten(chunks)))
  {
    hide Alike, Whole, TakeChunk;
    assert chunks[..|chunks|] == chunks;
  }

  // ---- consequences and examples

  lemma {:induction false} PartOfText(parts: seq<string>, i: nat, c: char)
    requires i < |parts| && c in parts[i]
    ensures c in Flatten(parts)
  {
    if i > 0 {
      PartOfText(parts[1..], i - 1, c);
    }
  }

  /** What is open was read from the text. */
  lemma OpenIsRead(rules: Rules, chunks: seq<string>, c: char)
    ensures var page := TakeAll(rules, chunks);
            && (page.open.Heading? && c in page.open.line ==> c in Flatten(chunks))
            && (page.open.Grid? && c in page.open.heading ==> c in Flatten(chunks))
  {
    NothingIsLost(rules, chunks);
    hide Sources, TakeAll, Flatten;
  }

  lemma LastLineIsRead(a: string, c: char)
    requires a != "" && c in Last(SplitLines(a))
    ensures c in a
  {
    LinesMakeTheText(a);
    PartOfText(SplitLines(a), |SplitLines(a)| - 1, c);
  }

  lemma PrefixIsRead(chunks: seq<string>, i: nat, c: char)
    requires i < |chunks|
    ensures c in Flatten(chunks[..i]) || c in chunks[i] ==> c in Flatten(chunks)
  {
    FlattenAppend(chunks[..i], chunks[i..]);
    assert chunks[..i] + chunks[i..] == chunks && chunks[i..][0] == chunks[i];
  }

  /** Text without a bar may be cut anywhere. */
  lemma TextWithoutBarsMayBeCut(rules: Rules, chunks: seq<string>)
    requires TestsAreUsual(rules) && '|' !in Flatten(chunks)
    ensures ChunkingIsIrrelevant(rules, chunks)
  {
    ChunkingIsIrrelevantIff(rules, chunks);
    hide TakeAll, Flatten, LineLength, SplitLines, LetsGo, ChunkingIsIrrelevant;
    forall i | 0 <= i < |chunks|
      ensures CutAgrees(rules, TakeAll(rules, chunks[..i]), Flatten(chunks[..i]), chunks[i])
    {
      var page, before, next := TakeAll(rules, chunks[..i]), Flatten(chunks[..i]), chunks[i];
      PrefixIsRead(chunks, i, '|');
      OpenIsRead(rules, chunks[..i], '|');
      TablesAreGenuine(rules, chunks[..i]);
      if Joins(before, next) {
        if '|' in Last(SplitLines(before)) {
          LastLineIsRead(before, '|');
        }
        NoHeldLine(rules, page, Last(SplitLines(before)), next[..LineLength(next)]);
      }
    }
  }

  lemma NoHeldLine(rules: Rules, page: Page, last: string, first: string)
    requires TestsAreUsual(rules) && Genuine(rules, page) && '|' !in last && '|' !in first
    requires page.open.Heading? ==> '|' !in page.open.line
    requires page.open.Grid? ==> '|' !in page.open.heading
    ensures page.open == Nothing && !Held(rules, first) && !Held(rules, last + first)
  {
  }

  /**
   * For a given layout a harmful cut may go unseen after all: a table of a heading
   * alone, over in the same chunk, may be laid out alike with the front of its
   * heading cut off.
   */
  lemma LayoutMayHideIt(rules: Rules, page: Page, front: string, first: string, separator: string, last: string)
    requires page.open == Nothing && page.partial == "" && front != "" && first != ""
    requires Held(rules, first) && Held(rules, front + first)
    requires rules.separator(separator) && !rules.nonReply(separator) && rules.row(separator).None?
    requires !rules.nonReply(last) && rules.row(last).None?
    requires rules.layout(Rows(rules, front + first, [])) == front + rules.layout(Rows(rules, first, []))
    ensures var a := TakeLine(rules, page.(items := page.items + [Text(front)]), first);
            var b := TakeLine(rules, page, front + first);
            var x, y := TakeLines(rules, a, [separator, last]), TakeLines(rules, b, [separator, last]);
            && x.open == y.open && x.partial == y.partial && Shown(rules, x.items) == Shown(rules, y.items)
            && !Alike(rules, TakeRest(rules, a, [separator, last], ""), TakeRest(rules, b, [separator, last], ""))
  {
    var out := page.(items := page.items + [Text(front)]);
    var a, b := TakeLine(rules, out, first), TakeLine(rules, page, front + first);
    LineLetOut(rules, page, front, first);
    OpenFromNothing(rules, out, first);
    OpenFromNothing(rules, page, front + first);
    hide TakeLine, TakeLines, TakeRest, Shown, Rows;
    TwinsMeetIff(rules, a, b, [separator, last], "");
    TableOfHeading(rules, a, first, separator, last);
    TableOfHeading(rules, b, front + first, separator, last);
    LineGoes(rules, rules.layout, out, first);
    LineGoes(rules, rules.layout, page, front + first);
    ShownSnoc(rules, page.items, Text(front));
    assert With(rules, rules.layout) == rules;
    var s := Shown(rules, page.items);
    assert s + front + "" == s + front && s + "" == s;
    Associate(s, front, rules.layout(Rows(rules, first, [])) + last);
    Associate(front, rules.layout(Rows(rules, first, [])), last);
  }

  lemma TableOfHeading(rules: Rules, page: Page, heading: string, separator: string, last: string)
    requires page.open == Heading(heading) && rules.separator(separator) && !rules.nonReply(separator)
    requires !rules.nonReply(last) && rules.row(last).None?
    ensures var next := TakeLines(rules, page, [separator, last]);
            && next.open == Nothing && next.partial == page.partial
            && Shown(rules, next.items) ==
                 Shown(rules, page.items) + (rules.layout(Rows(rules, heading, [])) + last)
  {
    hide TakeLines, Shown, Rows;
    LinesGo(rules, rules.layout, page, [separator, last]);
    assert With(rules, rules.layout) == rules;
    assert [separator, last][1..] == [last] && [last][1..] == [];
    var grid := GoLine(rules, rules.layout, page.open, separator);
    var over := GoLine(rules, rules.layout, grid.open, last);
    assert Go(rules, rules.layout, over.open, []) == Result("", over.open);
    assert over.out + "" == over.out && "" + over.out == over.out;
    assert Go(rules, rules.layout, grid.open, [last]) == Result(over.out, over.open);
  }

  /**
   * Whether a table is recognised depends on the chunking: once the first words
   * of a line went out, the rest of it is read as a line of its own.
   */
  lemma ChunkingMatters(rules: Rules)
    requires !rules.nonReply("a|b\n") && rules.row("a|b\n").Some? && rules.nonReply("tip: a|b\n")
    ensures TakeAll(rules, ["tip: ", "a|b\n"]).open == Heading("a|b\n")
    ensures TakeAll(rules, ["tip: a|b\n"]).open == Nothing
    ensures !ChunkingIsIrrelevant(rules, ["tip: ", "a|b\n"])
  {
    hide TakeChunk, TakeAll, Flatten, ChunkingIsIrrelevant, Shown, With;
    FirstChunks(rules, "tip: ", "a|b\n");
    FirstChunks(rules, "tip: a|b\n", "");
    ChunkOfWords(rules, "tip: ");
    ChunkOfOneLine(rules, Page([Text("tip: ")], Nothing, ""), "a|b\n");
    ChunkOfOneLine(rules, BLANK, "tip: a|b\n");
    TwoChunks("tip: ", "a|b\n");
    assert "tip: " + "a|b\n" == "tip: a|b\n";
    if ChunkingIsIrrelevant(rules, ["tip: ", "a|b\n"]) {
      LastIsAlike(rules, ["tip: ", "a|b\n"]);
      assert false;
    }
  }

  lemma TwoChunks(a: string, b: string)
    ensures Flatten([a, b]) == a + b
  {
    assert [a, b][1..] == [b] && [b][1..] == [];
    assert Flatten([b]) == b + Flatten([]) == b;
  }
}

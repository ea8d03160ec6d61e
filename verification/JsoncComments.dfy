/**
 * Removing comments from the terminal settings, which are JSON with `//` and
 * block comments. What looks like a comment inside a string is kept.
 */
module JsoncComments {

  const NEWLINE: char := '\n'

  /** Length of the text up to the end of the line. */
  function LineText(s: string): (n: nat)
    ensures n <= |s| && (n < |s| ==> s[n] == NEWLINE) && forall i :: 0 <= i < n ==> s[i] != NEWLINE
  {
    if s == "" || s[0] == NEWLINE then 0 else 1 + LineText(s[1..])
  }

  /** Length of a block comment's text and end; `star` says that an asterisk precedes `s`. */
  function BlockText(s: string, star: bool): (n: nat)
    ensures n <= |s|
  {
    if s == "" then 0 else if star && s[0] == '/' then 1 else 1 + BlockText(s[1..], s[0] == '*')
  }

  /** One turn of the scanning loop: what it puts out, how far it goes, and its flags after it. */
  datatype Turn = Turn(out: string, length: nat, inString: bool, escaped: bool)

  function Scan(s: string, inString: bool, escaped: bool): (t: Turn)
    requires s != ""
    ensures 1 <= t.length <= |s|
  {
    if inString then Turn([s[0]], 1, escaped || s[0] != '"', !escaped && s[0] == '\\')
    else if s[0] == '"' then Turn([s[0]], 1, true, escaped)
    else if |s| > 1 && s[0] == '/' && s[1] == '/' then
      var n := LineText(s[2..]);
      if n == |s| - 2 then Turn("", |s|, false, escaped) else Turn([NEWLINE], n + 3, false, escaped)
    else if |s| > 1 && s[0] == '/' && s[1] == '*' then Turn("", 2 + BlockText(s[2..], false), false, escaped)
    else Turn([s[0]], 1, false, escaped)
  }

  function Strip(s: string, inString: bool, escaped: bool): string
    decreases |s|
  {
    if s == "" then ""
    else
      var t := Scan(s, inString, escaped);
      t.out + Strip(s[t.length..], t.inString, t.escaped)
  }

  /** The scanning loop with its two flags; a comment is skipped in one turn. */
  method StripJsoncComments(input: string) returns (out: string)
    ensures out == Strip(input, false, false)
  {
    hide Scan, Strip;
    out := "";
    var inString, escaped, i := false, false, 0;
    assert input[0..] == input && "" + Strip(input, false, false) == Strip(input, false, false);
    while i < |input|
      invariant i <= |input|
      invariant out + Strip(input[i..], inString, escaped) == Strip(input, false, false)
    {
      StripTurn(out, input, i, inString, escaped);
      out, i, inString, escaped := TakeTurn(input, i, out, inString, escaped);
    }
    StripNothing(inString, escaped);
    assert input[i..] == "";
  }

  lemma StripNothing(inString: bool, escaped: bool)
    ensures Strip("", inString, escaped) == ""
  {
  }

  lemma StripTurn(out: string, input: string, i: nat, inString: bool, escaped: bool)
    requires i < |input|
    ensures var t := Scan(input[i..], inString, escaped);
            out + Strip(input[i..], inString, escaped)
            == out + t.out + Strip(input[i + t.length..], t.inString, t.escaped)
  {
    hide Scan;
    var t := Scan(input[i..], inString, escaped);
    assert input[i..][t.length..] == input[i + t.length..];
    assert out + (t.out + Strip(input[i + t.length..], t.inString, t.escaped))
        == out + t.out + Strip(input[i + t.length..], t.inString, t.escaped);
  }

  method TakeTurn(input: string, at: nat, before: string, wasInString: bool, wasEscaped: bool)
    returns (out: string, i: nat, inString: bool, escaped: bool)
    requires at < |input|
    ensures var t := Scan(input[at..], wasInString, wasEscaped);
            out == before + t.out && i == at + t.length && inString == t.inString && escaped == t.escaped
  {
    out, i, inString, escaped := before, at + 1, wasInString, wasEscaped;
    var ch := input[at];
    if inString {
      out := out + [ch];
      if escaped {
        escaped := false;
      } else if ch == '\\' {
        escaped := true;
      } else if ch == '"' {
        inString := false;
      }
      return;
    }
    if ch == '"' {
      inString := true;
      out := out + [ch];
      return;
    }
    if ch == '/' && i < |input| && input[i] == '/' {
      assert input[at..][2..] == input[i + 1..];
      i := SkipLine(input, i + 1);
      if i < |input| {
        out := out + [NEWLINE];
        i := i + 1;
      }
      return;
    }
    if ch == '/' && i < |input| && input[i] == '*' {
      assert input[at..][2..] == input[i + 1..];
      i := SkipBlock(input, i + 1);
      return;
    }
    out := out + [ch];
  }

  method SkipLine(input: string, at: nat) returns (i: nat)
    requires at <= |input|
    ensures i == at + LineText(input[at..]) <= |input|
  {
    i := at;
    while i < |input| && input[i] != NEWLINE
      invariant at <= i <= |input|
      invariant LineText(input[at..]) == i - at + LineText(input[i..])
    {
      assert input[i..][1..] == input[i + 1..];
      i := i + 1;
    }
  }

  method SkipBlock(input: string, at: nat) returns (i: nat)
    requires at <= |input|
    ensures i == at + BlockText(input[at..], false) <= |input|
  {
    i := at;
    var prev := '\U{0}';
    while i < |input|
      invariant at <= i <= |input|
      invariant BlockText(input[at..], false) == i - at + BlockText(input[i..], prev == '*')
    {
      assert input[i..][1..] == input[i + 1..];
      var next := input[i];
      i := i + 1;
      if prev == '*' && next == '/' {
        return;
      }
      prev := next;
    }
  }

  // ---- what is removed and what is kept

  /** A well-formed stretch of the settings: a string, a comment, or another character. */
  datatype Piece =
    | Quoted(body: string)
    | LineComment(text: string)
    | BlockComment(text: string)
    | Other(c: char)

  /** The string body runs up to its first unescaped quotation mark, which ends the string. */
  predicate IsBody(body: string, escaped: bool)
  {
    body == "" || ((escaped || body[0] != '"') && IsBody(body[1..], !escaped && body[0] == '\\'))
  }

  /** Whether the character after the body would be escaped. */
  predicate EndsEscaped(body: string, escaped: bool)
  {
    if body == "" then escaped else EndsEscaped(body[1..], !escaped && body[0] == '\\')
  }

  /** No end of a block comment in the text, nor one made with what follows it. */
  predicate IsBlockText(text: string, star: bool)
  {
    text == "" || (!(star && text[0] == '/') && IsBlockText(text[1..], text[0] == '*'))
  }

  predicate IsPiece(p: Piece) {
    match p
    case Quoted(body) => IsBody(body, false) && !EndsEscaped(body, false)
    case LineComment(text) => NEWLINE !in text
    case BlockComment(text) => IsBlockText(text, false)
    case Other(c) => c != '"'
  }

  function Source(p: Piece): string {
    match p
    case Quoted(body) => "\"" + body + "\""
    case LineComment(text) => "//" + text + [NEWLINE]
    case BlockComment(text) => "/*" + text + "*/"
    case Other(c) => [c]
  }

  function Kept(p: Piece): string {
    match p
    case Quoted(_) => Source(p)
    case LineComment(_) => [NEWLINE]
    case BlockComment(_) => ""
    case Other(_) => Source(p)
  }

  /** How the settings end: after a piece, or inside a string or comment that nothing closes. */
  datatype Ending =
    | Complete
    | OpenString(body: string)
    | OpenLine(text: string)
    | OpenBlock(text: string)

  predicate IsEnding(e: Ending) {
    match e
    case Complete => true
    case OpenString(body) => IsBody(body, false)
    case OpenLine(text) => NEWLINE !in text
    case OpenBlock(text) => IsBlockText(text, false)
  }

  function EndSource(e: Ending): string {
    match e
    case Complete => ""
    case OpenString(body) => "\"" + body
    case OpenLine(text) => "//" + text
    case OpenBlock(text) => "/*" + text
  }

  function EndKept(e: Ending): string {
    if e.OpenString? then EndSource(e) else ""
  }

  function Text(pieces: seq<Piece>, end: Ending): string {
    if pieces == [] then EndSource(end) else Source(pieces[0]) + Text(pieces[1..], end)
  }

  function Result(pieces: seq<Piece>, end: Ending): string {
    if pieces == [] then EndKept(end) else Kept(pieces[0]) + Result(pieces[1..], end)
  }

  predicate OpensComment(next: string) {
    next != "" && (next[0] == '/' || next[0] == '*')
  }

  /** A slash outside strings and comments does not stand before what would make it a comment. */
  predicate IsSettings(pieces: seq<Piece>, end: Ending) {
    if pieces == [] then IsEnding(end)
    else
      && IsPiece(pieces[0]) && IsSettings(pieces[1..], end)
      && (pieces[0] == Other('/') ==> !OpensComment(Text(pieces[1..], end)))
  }

  lemma {:induction false} StripBody(body: string, escaped: bool, more: string)
    requires IsBody(body, escaped) && !EndsEscaped(body, escaped)
    ensures Strip(body + "\"" + more, true, escaped) == body + "\"" + Strip(more, false, false)
  {
    if body == "" {
      StripClose(more);
      assert "" + "\"" + more == "\"" + more && "" + "\"" == "\"";
    } else {
      hide Strip, IsBody;
      var s := body + "\"" + more;
      var flag := !escaped && body[0] == '\\';
      BodyRest(body, escaped);
      StripBody(body[1..], flag, more);
      StripInside(s, escaped);
      HeadAndRest(body, "\"", more);
      HeadAndRest(body, "\"", Strip(more, false, false));
    }
  }

  lemma BodyRest(body: string, escaped: bool)
    requires body != "" && IsBody(body, escaped)
    ensures (escaped || body[0] != '"') && IsBody(body[1..], !escaped && body[0] == '\\')
  {
  }

  lemma StripClose(more: string)
    ensures Strip("\"" + more, true, false) == "\"" + Strip(more, false, false)
  {
    assert ("\"" + more)[1..] == more;
  }

  lemma HeadAndRest(body: string, mark: string, more: string)
    requires body != ""
    ensures var s := body + mark + more;
            s[0] == body[0] && s[1..] == body[1..] + mark + more && s == [body[0]] + (body[1..] + mark + more)
  {
  }

  lemma StripInside(s: string, escaped: bool)
    requires s != "" && (escaped || s[0] != '"')
    ensures Strip(s, true, escaped) == [s[0]] + Strip(s[1..], true, !escaped && s[0] == '\\')
  {
  }

  lemma {:induction false} LineTextIs(text: string, more: string)
    requires NEWLINE !in text
    ensures LineText(text + [NEWLINE] + more) == |text|
  {
    var s := text + [NEWLINE] + more;
    if text != "" {
      assert s[0] == text[0] && s[1..] == text[1..] + [NEWLINE] + more;
      LineTextIs(text[1..], more);
    }
  }

  lemma {:induction false} BlockTextIs(text: string, star: bool, more: string)
    requires IsBlockText(text, star)
    ensures BlockText(text + "*/" + more, star) == |text| + 2
  {
    var s := text + "*/" + more;
    if text == "" {
      assert s[0] == '*' && s[1] == '/';
      assert s[1..][0] == '/';
    } else {
      assert s[0] == text[0] && s[1..] == text[1..] + "*/" + more;
      BlockTextIs(text[1..], text[0] == '*', more);
    }
  }

  lemma StripPiece(p: Piece, more: string)
    requires IsPiece(p)
    requires p == Other('/') ==> !OpensComment(more)
    ensures Strip(Source(p) + more, false, false) == Kept(p) + Strip(more, false, false)
  {
    var s := Source(p) + more;
    match p
    case Quoted(body) => QuotedPiece(body, more);
    case LineComment(text) => LinePiece(text, more);
    case BlockComment(text) => BlockPiece(text, more);
    case Other(c) =>
      assert s[1..] == more;
      assert |s| > 1 ==> s[1] == more[0];
  }

  lemma QuotedPiece(body: string, more: string)
    requires IsPiece(Quoted(body))
    ensures Strip("\"" + body + "\"" + more, false, false) == "\"" + body + "\"" + Strip(more, false, false)
  {
    hide Strip, IsBody, EndsEscaped;
    StripBody(body, false, more);
    StripOpen(body + "\"" + more);
    Associate("\"", body, "\"", more);
    Associate("\"", body, "\"", Strip(more, false, false));
  }

  lemma StripOpen(inner: string)
    ensures Strip("\"" + inner, false, false) == "\"" + Strip(inner, true, false)
  {
    assert ("\"" + inner)[1..] == inner;
  }

  lemma Associate(a: string, b: string, c: string, d: string)
    ensures a + b + c + d == a + (b + c + d)
  {
  }

  lemma LinePiece(text: string, more: string)
    requires NEWLINE !in text
    ensures Strip("//" + text + [NEWLINE] + more, false, false) == [NEWLINE] + Strip(more, false, false)
  {
    var s := "//" + text + [NEWLINE] + more;
    LineTextIs(text, more);
    hide LineText;
    assert s[0] == '/' && s[1] == '/' && s[2..] == text + [NEWLINE] + more;
    assert s[|text| + 3..] == more;
  }

  lemma BlockPiece(text: string, more: string)
    requires IsBlockText(text, false)
    ensures Strip("/*" + text + "*/" + more, false, false) == Strip(more, false, false)
  {
    var s := "/*" + text + "*/" + more;
    BlockTextIs(text, false, more);
    hide BlockText;
    assert s[0] == '/' && s[1] == '*' && s[2..] == text + "*/" + more;
    assert s[|text| + 4..] == more;
    assert "" + Strip(more, false, false) == Strip(more, false, false);
  }

  // ---- the ending

  lemma {:induction false} StripOpenBody(body: string, escaped: bool)
    requires IsBody(body, escaped)
    ensures Strip(body, true, escaped) == body
  {
    hide Strip, IsBody;
    if body == "" {
      StripNothing(true, escaped);
    } else {
      BodyRest(body, escaped);
      StripOpenBody(body[1..], !escaped && body[0] == '\\');
      StripInside(body, escaped);
      assert [body[0]] + body[1..] == body;
    }
  }

  lemma {:induction false} OpenLineText(text: string)
    requires NEWLINE !in text
    ensures LineText(text) == |text|
  {
    if text != "" {
      OpenLineText(text[1..]);
    }
  }

  lemma {:induction false} OpenBlockText(text: string, star: bool)
    requires IsBlockText(text, star)
    ensures BlockText(text, star) == |text|
  {
    if text != "" {
      OpenBlockText(text[1..], text[0] == '*');
    }
  }

  lemma StripEnding(e: Ending)
    requires IsEnding(e)
    ensures Strip(EndSource(e), false, false) == EndKept(e)
  {
    var s := EndSource(e);
    match e
    case Complete =>
    case OpenString(body) =>
      StripOpenBody(body, false);
      StripOpen(body);
    case OpenLine(text) =>
      OpenLineText(text);
      assert s[0] == '/' && s[1] == '/' && s[2..] == text && s[|s|..] == "";
      StripNothing(false, false);
    case OpenBlock(text) =>
      OpenBlockText(text, false);
      assert s[0] == '/' && s[1] == '*' && s[2..] == text && s[|s|..] == "";
      StripNothing(false, false);
  }

  /**
   * For every text made of strings, comments and other characters, the last
   * string or comment closed or not: line comments leave their line end, block
   * comments nothing, and everything else is kept, comment-like text inside
   * strings included. Every text is made so (see `EveryTextIsSettings`).
   */
  lemma {:induction false} OnlyCommentsAreRemoved(pieces: seq<Piece>, end: Ending)
    requires IsSettings(pieces, end)
    ensures Strip(Text(pieces, end), false, false) == Result(pieces, end)
  {
    if pieces == [] {
      StripEnding(end);
      return;
    }
    hide Strip, IsPiece, Source, Kept;
    OnlyCommentsAreRemoved(pieces[1..], end);
    StripPiece(pieces[0], Text(pieces[1..], end));
  }

  // ---- every text is made of pieces and an ending

  /** The body of a string up to the quotation mark that ends it, if any does. */
  lemma {:induction false} FindBody(s: string, escaped: bool) returns (n: nat)
    ensures n <= |s| && IsBody(s[..n], escaped)
    ensures n < |s| ==> s[n] == '"' && !EndsEscaped(s[..n], escaped)
  {
    if s == "" || (!escaped && s[0] == '"') {
      return 0;
    }
    var m := FindBody(s[1..], !escaped && s[0] == '\\');
    n := m + 1;
    assert s[..n][1..] == s[1..][..m];
  }

  /** The text of a block comment: all of it, or up to the mark that ends it. */
  lemma {:induction false} BlockTextSplits(s: string, star: bool)
    ensures var n := BlockText(s, star);
            || IsBlockText(s, star)
            || (n >= 2 && s[n - 2] == '*' && s[n - 1] == '/' && IsBlockText(s[..n - 2], star))
            || (star && n == 1 && s[0] == '/')
  {
    if s == "" || (star && s[0] == '/') {
      return;
    }
    var n := BlockText(s[1..], s[0] == '*');
    BlockTextSplits(s[1..], s[0] == '*');
    if n >= 2 && IsBlockText(s[1..][..n - 2], s[0] == '*') {
      assert s[..n - 1][1..] == s[1..][..n - 2];
    }
  }

  lemma PutFirst(p: Piece, pieces: seq<Piece>, end: Ending, s: string)
    requires IsPiece(p) && IsSettings(pieces, end) && s == Source(p) + Text(pieces, end)
    requires p == Other('/') ==> !OpensComment(Text(pieces, end))
    ensures IsSettings([p] + pieces, end) && Text([p] + pieces, end) == s
  {
    hide IsPiece, Source;
    assert ([p] + pieces)[1..] == pieces;
  }

  /** The first string, comment or character of a text; or the ending that is all of it. */
  lemma FirstPiece(s: string) returns (whole: bool, p: Piece, rest: string, end: Ending)
    requires s != ""
    ensures whole ==> IsEnding(end) && EndSource(end) == s
    ensures !whole ==> IsPiece(p) && s == Source(p) + rest && (p == Other('/') ==> !OpensComment(rest))
  {
    whole, p, rest, end := false, Other(s[0]), s[1..], Complete;
    if s[0] == '"' {
      var n := FindBody(s[1..], false);
      if n < |s| - 1 {
        p, rest := Quoted(s[1..][..n]), s[n + 2..];
        assert s == "\"" + s[1..][..n] + "\"" + rest;
      } else {
        whole, end := true, OpenString(s[1..]);
        assert s[1..][..n] == s[1..];
      }
    } else if |s| > 1 && s[0] == '/' && s[1] == '/' {
      var n := LineText(s[2..]);
      if n < |s| - 2 {
        p, rest := LineComment(s[2..][..n]), s[n + 3..];
        assert s == "//" + s[2..][..n] + [NEWLINE] + rest;
      } else {
        whole, end := true, OpenLine(s[2..]);
      }
    } else if |s| > 1 && s[0] == '/' && s[1] == '*' {
      whole, p, rest, end := FirstBlock(s);
    }
  }

  lemma FirstBlock(s: string) returns (whole: bool, p: Piece, rest: string, end: Ending)
    requires |s| > 1 && s[0] == '/' && s[1] == '*'
    ensures whole ==> IsEnding(end) && EndSource(end) == s
    ensures !whole ==> IsPiece(p) && s == Source(p) + rest && !p.Other?
  {
    hide IsBlockText, BlockText;
    BlockTextSplits(s[2..], false);
    whole, p, rest, end := true, BlockComment(""), "", OpenBlock(s[2..]);
    if !IsBlockText(s[2..], false) {
      var n := BlockText(s[2..], false);
      whole, p, rest := false, BlockComment(s[2..][..n - 2]), s[n + 2..];
      assert s == "/*" + s[2..][..n - 2] + "*/" + rest;
    }
  }

  /** So `OnlyCommentsAreRemoved` speaks of every text. */
  lemma {:induction false} EveryTextIsSettings(s: string) returns (pieces: seq<Piece>, end: Ending)
    ensures IsSettings(pieces, end) && Text(pieces, end) == s
    decreases |s|
  {
    if s == "" {
      return [], Complete;
    }
    var whole, p, rest, e := FirstPiece(s);
    if whole {
      return [], e;
    }
    hide IsPiece, IsSettings, OpensComment;
    var more, last := EveryTextIsSettings(rest);
    pieces, end := [p] + more, last;
    PutFirst(p, more, last, s);
  }

  // ---- stripping twice

  lemma StripHead(c: char, more: string, inString: bool, escaped: bool)
    requires !inString && c == '/' ==> more == "" || (more[0] != '/' && more[0] != '*')
    ensures Strip([c] + more, inString, escaped) ==
      if inString then [c] + Strip(more, escaped || c != '"', !escaped && c == '\\')
      else [c] + Strip(more, c == '"', escaped)
  {
    var s := [c] + more;
    assert s[1..] == more;
    assert |s| > 1 ==> s[1] == more[0];
  }

  /** A kept slash is not followed by what would make it a comment. */
  lemma SlashStaysAlone(s: string, escaped: bool)
    requires s == "" || (s[0] != '/' && s[0] != '*')
    ensures var out := Strip(s, false, escaped); out == "" || (out[0] != '/' && out[0] != '*')
  {
  }

  /** A turn puts out one character, or none and then leaves the flags alone. */
  lemma ScanPutsOut(s: string, inString: bool, escaped: bool)
    requires s != ""
    ensures var t := Scan(s, inString, escaped);
            && |t.out| <= 1
            && (t.out == "" ==> t.inString == inString && t.escaped == escaped)
            && (t.out != "" && inString ==>
                  t.inString == (escaped || t.out[0] != '"') && t.escaped == (!escaped && t.out[0] == '\\'))
            && (t.out != "" && !inString ==> t.inString == (t.out[0] == '"') && t.escaped == escaped)
            && (t.out == "/" && !inString ==> t.length == 1 && (|s| == 1 || (s[1] != '/' && s[1] != '*')))
  {
  }

  /** Stripping stripped settings changes nothing. */
  lemma {:induction false} StripIsIdempotent(s: string, inString: bool, escaped: bool)
    ensures Strip(Strip(s, inString, escaped), inString, escaped) == Strip(s, inString, escaped)
    decreases |s|
  {
    if s == "" {
      return;
    }
    var t := Scan(s, inString, escaped);
    var rest := Strip(s[t.length..], t.inString, t.escaped);
    StripIsIdempotent(s[t.length..], t.inString, t.escaped);
    assert Strip(s, inString, escaped) == t.out + rest;
    ScanPutsOut(s, inString, escaped);
    hide Strip, Scan;
    if t.out == "" {
      assert "" + rest == rest;
    } else {
      if !inString && t.out == "/" {
        SlashStaysAlone(s[1..], escaped);
      }
      assert t.out == [t.out[0]];
      StripHead(t.out[0], rest, inString, escaped);
    }
  }
}

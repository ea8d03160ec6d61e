/**
 * Quoting of one Windows command-line argument, and how the receiving program
 * takes a command line apart again: the Microsoft C runtime's rules ("Parsing C
 * command-line arguments") for the arguments after the program name.
 */
module WindowsArgs {
  import opened Sequences
  import opened Utf8

  // ---- taking a command line apart

  /** Outside quotation marks, arguments end at a space or a tab. */
  predicate IsDelimiter(c: char) {
    c == ' ' || c == '\t'
  }

  predicate EndsArg(s: string) {
    s == "" || IsDelimiter(s[0])
  }

  /** The number of backslashes `s` starts with. */
  function Leading(s: string): (n: nat)
    ensures n <= |s|
    ensures forall i :: 0 <= i < n ==> s[i] == '\\'
    ensures n < |s| ==> s[n] != '\\'
  {
    if s == "" || s[0] != '\\' then 0 else 1 + Leading(s[1..])
  }

  /** One argument and what follows it. */
  datatype Parsed = Parsed(arg: string, rest: string)

  /** What the next few characters contribute, how many they are, and whether quotation marks are open after them. */
  datatype Taken = Taken(out: string, length: nat, quoted: bool)

  /**
   * Backslashes count only before a quotation mark: two make one, and an odd one
   * makes the mark literal. Inside quotation marks two of them make a literal one.
   */
  function Take(s: string, quoted: bool): (t: Taken)
    requires s != ""
    ensures 1 <= t.length <= |s|
  {
    var n := Leading(s);
    if n < |s| && s[n] == '"' then
      if n % 2 == 1 then Taken(Repeat('\\', n / 2) + "\"", n + 1, quoted)
      else if quoted && n + 1 < |s| && s[n + 1] == '"' then Taken(Repeat('\\', n / 2) + "\"", n + 2, true)
      else Taken(Repeat('\\', n / 2), n + 1, !quoted)
    else if n > 0 then Taken(Repeat('\\', n), n, quoted)
    else Taken([s[0]], 1, quoted)
  }

  function ParseArg(s: string, quoted: bool): (r: Parsed)
    ensures |r.rest| <= |s|
    ensures !EndsArg(s) ==> |r.rest| < |s|
    decreases |s|
  {
    if s == "" || (!quoted && IsDelimiter(s[0])) then Parsed("", s)
    else
      var taken := Take(s, quoted);
      Prepend(taken.out, ParseArg(s[taken.length..], taken.quoted))
  }

  function Prepend(front: string, p: Parsed): Parsed {
    p.(arg := front + p.arg)
  }

  function ParseArgs(s: string): seq<string>
    decreases |s|
  {
    if s == "" then []
    else if IsDelimiter(s[0]) then ParseArgs(s[1..])
    else
      var first := ParseArg(s, false);
      [first.arg] + ParseArgs(first.rest)
  }

  // ---- quoting

  predicate NeedsQuotes(value: string) {
    value == "" || exists i :: 0 <= i < |value| && (IsWhitespace(value[i]) || value[i] == '"' || value[i] == '\\')
  }

  /** The text between the quotation marks. */
  function Escaped(value: string): string
    decreases |value|
  {
    var n := Leading(value);
    if n == |value| then Repeat('\\', 2 * n)
    else if value[n] == '"' then Repeat('\\', 2 * n + 1) + "\"" + Escaped(value[n + 1..])
    else Repeat('\\', n) + [value[n]] + Escaped(value[n + 1..])
  }

  function Quote(value: string): string {
    if NeedsQuotes(value) then "\"" + Escaped(value) + "\"" else value
  }

  lemma {:induction false} LeadingRun(n: nat, rest: string)
    requires rest == "" || rest[0] != '\\'
    ensures Leading(Repeat('\\', n) + rest) == n
    ensures (Repeat('\\', n) + rest)[n..] == rest
  {
    var s := Repeat('\\', n) + rest;
    if n == 0 {
      assert s == rest;
    } else {
      assert s[1..] == Repeat('\\', n - 1) + rest;
      LeadingRun(n - 1, rest);
    }
  }

  lemma EscapedRun(n: nat)
    ensures Escaped(Repeat('\\', n)) == Repeat('\\', 2 * n)
  {
    LeadingRun(n, "");
    assert Repeat('\\', n) + "" == Repeat('\\', n);
  }

  /** One more character of the value: what the loop has put out and what it still owes. */
  lemma EscapedStep(n: nat, c: char, rest: string)
    ensures c == '\\' ==> Escaped(Repeat('\\', n) + ([c] + rest)) == Escaped(Repeat('\\', n + 1) + rest)
    ensures c == '"' ==> Escaped(Repeat('\\', n) + ([c] + rest)) == Repeat('\\', 2 * n + 1) + "\"" + Escaped(rest)
    ensures c != '\\' && c != '"' ==>
      Escaped(Repeat('\\', n) + ([c] + rest)) == Repeat('\\', n) + [c] + Escaped(rest)
  {
    var s := Repeat('\\', n) + ([c] + rest);
    if c == '\\' {
      assert s == Repeat('\\', n + 1) + rest;
    } else {
      LeadingRun(n, [c] + rest);
      assert s[n + 1..] == s[n..][1..] == rest;
    }
  }

  /** The loop's output so far with what it still owes: pending backslashes and the rest of the value. */
  function Owed(out: string, backslashes: nat, rest: string): string {
    out + Escaped(Repeat('\\', backslashes) + rest)
  }

  lemma OwedStep(out: string, n: nat, c: char, rest: string)
    ensures Owed(out, n, [c] + rest) ==
      if c == '\\' then Owed(out, n + 1, rest)
      else if c == '"' then Owed(out + Repeat('\\', n * 2 + 1) + "\"", 0, rest)
      else Owed(out + Repeat('\\', n) + [c], 0, rest)
  {
    hide Escaped, Repeat;
    EscapedStep(n, c, rest);
    assert Repeat('\\', 0) + rest == rest;
    if c == '"' {
      Reassociate(out, Repeat('\\', n * 2 + 1), "\"", Escaped(rest));
    } else if c != '\\' {
      Reassociate(out, Repeat('\\', n), [c], Escaped(rest));
    }
  }

  lemma OwedEnds(value: string, out: string, n: nat)
    ensures Owed("\"", 0, value) == "\"" + Escaped(value)
    ensures Owed(out, n, "") == out + Repeat('\\', n * 2)
  {
    assert Repeat('\\', 0) + value == value;
    assert Repeat('\\', n) + "" == Repeat('\\', n);
    EscapedRun(n);
  }

  /** The loop with its count of backslashes not yet written. */
  method QuoteWindowsArg(value: string) returns (out: string)
    ensures out == Quote(value)
  {
    hide Escaped, Owed, Repeat, NeedsQuotes;
    if !NeedsQuotes(value) {
      return value;
    }
    out := "\"";
    var backslashes := 0;
    OwedEnds(value, "", 0);
    assert value[0..] == value;
    for i := 0 to |value|
      invariant Owed("\"", 0, value) == Owed(out, backslashes, value[i..])
    {
      var ch := value[i];
      assert value[i..] == [ch] + value[i + 1..];
      OwedStep(out, backslashes, ch, value[i + 1..]);
      if ch == '\\' {
        backslashes := backslashes + 1;
        continue;
      }
      if ch == '"' {
        out := out + Repeat('\\', backslashes * 2 + 1);
        out := out + "\"";
      } else {
        out := out + Repeat('\\', backslashes);
        out := out + [ch];
      }
      backslashes := 0;
    }
    OwedEnds(value, out, backslashes);
    out := out + Repeat('\\', backslashes * 2);
    out := out + "\"";
  }

  lemma Reassociate(a: string, b: string, c: string, d: string)
    ensures a + (b + c + d) == a + b + c + d
  {
  }

  // ---- the round trip

  lemma TakeMark(s: string, n: nat)
    requires n == Leading(s) < |s| && s[n] == '"'
    ensures n % 2 == 1 ==> Take(s, true) == Taken(Repeat('\\', n / 2) + "\"", n + 1, true)
    ensures n % 2 == 0 && (n + 1 == |s| || s[n + 1] != '"') ==>
              Take(s, true) == Taken(Repeat('\\', n / 2), n + 1, false)
  {
  }

  lemma StepPlain(c: char, more: string)
    requires c != '\\' && c != '"'
    ensures ParseArg([c] + more, true) == Prepend([c], ParseArg(more, true))
  {
    assert ([c] + more)[1..] == more;
  }

  lemma NothingMore(tail: string, n: nat)
    requires EndsArg(tail)
    ensures Prepend(Repeat('\\', n), ParseArg(tail, false)) == Parsed(Repeat('\\', n), tail)
  {
    assert Repeat('\\', n) + "" == Repeat('\\', n);
  }

  lemma AfterRun(n: nat, c: char, more: string)
    requires c != '\\'
    ensures var s := Repeat('\\', n) + ([c] + more);
            Leading(s) == n < |s| && s[n] == c && s[n..] == [c] + more && s[n + 1..] == more
  {
    var s := Repeat('\\', n) + ([c] + more);
    LeadingRun(n, [c] + more);
    assert s[n + 1..] == s[n..][1..] == more;
  }

  lemma ParseClose(n: nat, tail: string)
    requires EndsArg(tail)
    ensures ParseArg(Repeat('\\', 2 * n) + ("\"" + tail), true) == Parsed(Repeat('\\', n), tail)
  {
    hide Take, Leading;
    var s := Repeat('\\', 2 * n) + ("\"" + tail);
    AfterRun(2 * n, '"', tail);
    assert tail != "" ==> s[2 * n + 1] == tail[0];
    TakeMark(s, 2 * n);
    NothingMore(tail, n);
  }

  lemma ParseEscapedMark(n: nat, more: string)
    ensures ParseArg(Repeat('\\', 2 * n + 1) + ("\"" + more), true) ==
              Prepend(Repeat('\\', n) + "\"", ParseArg(more, true))
  {
    hide Take, Leading;
    AfterRun(2 * n + 1, '"', more);
    TakeMark(Repeat('\\', 2 * n + 1) + ("\"" + more), 2 * n + 1);
  }

  lemma ParsePlain(n: nat, c: char, more: string)
    requires c != '\\' && c != '"'
    ensures ParseArg(Repeat('\\', n) + ([c] + more), true) == Prepend(Repeat('\\', n) + [c], ParseArg(more, true))
  {
    hide Leading;
    AfterRun(n, c, more);
    StepPlain(c, more);
    if n > 0 {
      PrependTwice(Repeat('\\', n), [c], ParseArg(more, true));
    } else {
      assert Repeat('\\', n) + ([c] + more) == [c] + more && Repeat('\\', n) + [c] == [c];
    }
  }

  lemma PrependTwice(a: string, b: string, p: Parsed)
    ensures Prepend(a, Prepend(b, p)) == Prepend(a + b, p)
  {
    assert a + (b + p.arg) == a + b + p.arg;
  }

  /** The value is its run of backslashes, the character after it, and the rest. */
  lemma ValueFromRun(value: string, n: nat)
    requires n == Leading(value) < |value|
    ensures Repeat('\\', n) + [value[n]] + value[n + 1..] == value
  {
    hide Repeat, Leading;
    StartsWithRun(value, n);
    assert value == value[..n] + [value[n]] + value[n + 1..];
  }

  lemma StartsWithRun(value: string, n: nat)
    requires n == Leading(value)
    ensures n <= |value| && value[..n] == Repeat('\\', n)
  {
  }

  lemma AllRun(value: string)
    requires Leading(value) == |value|
    ensures value == Repeat('\\', |value|)
  {
  }

  lemma EscapedAll(value: string, n: nat)
    requires n == Leading(value) == |value|
    ensures Escaped(value) == Repeat('\\', 2 * n)
  {
    hide Leading, Repeat;
  }

  lemma EscapedMark(value: string, n: nat)
    requires n == Leading(value) < |value| && value[n] == '"'
    ensures Escaped(value) == Repeat('\\', 2 * n + 1) + "\"" + Escaped(value[n + 1..])
  {
    hide Leading, Repeat;
  }

  lemma EscapedPlain(value: string, n: nat)
    requires n == Leading(value) < |value| && value[n] != '"'
    ensures Escaped(value) == Repeat('\\', n) + [value[n]] + Escaped(value[n + 1..])
  {
    hide Leading, Repeat;
  }

  /** Reading the escaped text back inside quotation marks gives the value, and stops at the closing mark. */
  lemma {:induction false} ParseEscaped(value: string, tail: string)
    requires EndsArg(tail)
    ensures ParseArg(Escaped(value) + ("\"" + tail), true) == Parsed(value, tail)
    decreases |value|
  {
    hide ParseArg, Escaped, Leading;
    var n := Leading(value);
    if n == |value| {
      EscapedAll(value, n);
      AllRun(value);
      ParseClose(n, tail);
      return;
    }
    var rest := value[n + 1..];
    var more := Escaped(rest) + ("\"" + tail);
    ParseEscaped(rest, tail);
    if value[n] == '"' {
      EscapedMark(value, n);
      ParseEscapedMark(n, more);
      Regroup(Repeat('\\', 2 * n + 1), "\"", Escaped(rest), "\"" + tail);
    } else {
      EscapedPlain(value, n);
      ParsePlain(n, value[n], more);
      Regroup(Repeat('\\', n), [value[n]], Escaped(rest), "\"" + tail);
    }
    ValueFromRun(value, n);
  }

  lemma Regroup(a: string, b: string, c: string, d: string)
    ensures a + b + c + d == a + (b + (c + d))
  {
  }

  lemma {:induction false} ParseBare(value: string, tail: string)
    requires EndsArg(tail)
    requires forall i :: 0 <= i < |value| ==> !IsWhitespace(value[i]) && value[i] != '"' && value[i] != '\\'
    ensures ParseArg(value + tail, false) == Parsed(value, tail)
  {
    if value == "" {
      assert value + tail == tail;
    } else {
      var s := value + tail;
      assert s[0] == value[0] && s[1..] == value[1..] + tail;
      ParseBare(value[1..], tail);
      assert Leading(s) == 0;
      assert [value[0]] + value[1..] == value;
    }
  }

  lemma StepOpen(inner: string)
    ensures ParseArg("\"" + inner, false) == Prepend("", ParseArg(inner, true))
  {
    AfterRun(0, '"', inner);
    assert Repeat('\\', 0) + (['"'] + inner) == "\"" + inner;
    assert Repeat('\\', 0) == "";
  }

  /** One quoted argument is read back as the value, whatever argument follows. */
  lemma ParseQuote(value: string, tail: string)
    requires EndsArg(tail)
    ensures ParseArg(Quote(value) + tail, false) == Parsed(value, tail)
  {
    hide ParseArg, Escaped;
    if NeedsQuotes(value) {
      ParseEscaped(value, tail);
      StepOpen(Escaped(value) + ("\"" + tail));
      Regroup("\"", Escaped(value), "\"", tail);
      assert "" + value == value;
    } else {
      ParseBare(value, tail);
    }
  }

  lemma QuoteStartsArg(value: string)
    ensures Quote(value) != "" && !IsDelimiter(Quote(value)[0])
  {
    if !NeedsQuotes(value) {
      assert !IsWhitespace(value[0]);
    }
  }

  /** The quoted arguments joined with spaces. */
  function CommandLine(values: seq<string>): string {
    if values == [] then ""
    else if |values| == 1 then Quote(values[0])
    else Quote(values[0]) + (" " + CommandLine(values[1..]))
  }

  /** One quoted argument, and what follows it. */
  lemma ArgumentThenRest(value: string, rest: string)
    requires EndsArg(rest)
    ensures ParseArgs(Quote(value) + rest) == [value] + ParseArgs(rest)
  {
    hide Quote, ParseArg;
    QuoteStartsArg(value);
    ParseQuote(value, rest);
    assert (Quote(value) + rest)[0] == Quote(value)[0];
  }

  lemma DelimiterIsSkipped(rest: string)
    ensures ParseArgs(" " + rest) == ParseArgs(rest)
  {
    assert (" " + rest)[1..] == rest;
  }

  /** What follows the quoted arguments is read after them. */
  lemma {:induction false} ArgumentsThenRest(values: seq<string>, rest: string)
    requires values != [] && EndsArg(rest)
    ensures ParseArgs(CommandLine(values) + rest) == values + ParseArgs(rest)
  {
    hide Quote, ParseArgs;
    if |values| == 1 {
      ArgumentThenRest(values[0], rest);
    } else {
      var tail := CommandLine(values[1..]) + rest;
      ArgumentThenRest(values[0], " " + tail);
      DelimiterIsSkipped(tail);
      ArgumentsThenRest(values[1..], rest);
      Regroup(Quote(values[0]), " ", CommandLine(values[1..]), rest);
      assert values == [values[0]] + values[1..];
      assert CommandLine(values) + rest == Quote(values[0]) + (" " + tail);
    }
  }

  /** For every list of strings, the receiving program gets exactly that list. */
  lemma ArgumentsRoundTrip(values: seq<string>)
    ensures ParseArgs(CommandLine(values)) == values
  {
    if values != [] {
      ArgumentsThenRest(values, "");
      assert CommandLine(values) + "" == CommandLine(values);
    }
    hide Quote, ParseArg;
  }

  // ---- the program name

  /**
   * The C runtime reads the program name by another rule: quotation marks only
   * switch, and backslashes are ordinary characters.
   */
  function ProgramName(s: string, quoted: bool): Parsed
    decreases |s|
  {
    if s == "" || (!quoted && IsDelimiter(s[0])) then Parsed("", s)
    else if s[0] == '"' then ProgramName(s[1..], !quoted)
    else Prepend([s[0]], ProgramName(s[1..], quoted))
  }

  /** The program name and the arguments. */
  function ProgramAndArgs(s: string): seq<string> {
    var name := ProgramName(s, false);
    [name.arg] + ParseArgs(name.rest)
  }

  lemma {:induction false} NameHasNoMark(s: string, quoted: bool)
    ensures '"' !in ProgramName(s, quoted).arg
    decreases |s|
  {
    if s != "" && (quoted || !IsDelimiter(s[0])) {
      NameHasNoMark(s[1..], if s[0] == '"' then !quoted else quoted);
    }
  }

  /** Up to a mark, or outside marks up to a delimiter, everything is read as it is. */
  lemma {:induction false} NameIsRead(text: string, rest: string, quoted: bool)
    requires '"' !in text && (quoted || forall i :: 0 <= i < |text| ==> !IsDelimiter(text[i]))
    ensures ProgramName(text + rest, quoted) == Prepend(text, ProgramName(rest, quoted))
  {
    if text == "" {
      assert text + rest == rest;
    } else {
      assert (text + rest)[1..] == text[1..] + rest && (text + rest)[0] == text[0];
      NameIsRead(text[1..], rest, quoted);
      PrependTwice([text[0]], text[1..], ProgramName(rest, quoted));
      assert [text[0]] + text[1..] == text;
    }
  }

  /** Without quotation marks only the backslashes at the end are doubled. */
  lemma {:induction false} EscapedWithoutMarks(value: string)
    requires '"' !in value
    ensures '"' !in Escaped(value)
    ensures Escaped(value) == value <==> value == "" || value[|value| - 1] != '\\'
    decreases |value|
  {
    var n := Leading(value);
    if n == |value| {
      EscapedAll(value, n);
      AllRun(value);
    } else {
      var rest := value[n + 1..];
      EscapedPlain(value, n);
      EscapedWithoutMarks(rest);
      ValueFromRun(value, n);
      hide Escaped, Leading;
      assert value[n] != '"' && value[n] != '\\';
      assert rest != "" ==> rest[|rest| - 1] == value[|value| - 1];
    }
  }

  lemma QuotedNameIsRead(exe: string, rest: string)
    requires EndsArg(rest) && '"' !in exe
    ensures ProgramName("\"" + Escaped(exe) + "\"" + rest, false) == Parsed(Escaped(exe), rest)
  {
    EscapedWithoutMarks(exe);
    hide Escaped;
    var s := "\"" + Escaped(exe) + "\"" + rest;
    assert s[1..] == Escaped(exe) + ("\"" + rest);
    NameIsRead(Escaped(exe), "\"" + rest, true);
    assert ("\"" + rest)[1..] == rest;
    assert ProgramName(rest, false) == Parsed("", rest);
    assert Escaped(exe) + "" == Escaped(exe);
  }

  lemma BareNameIsRead(exe: string, rest: string)
    requires EndsArg(rest) && !NeedsQuotes(exe)
    ensures ProgramName(exe + rest, false) == Parsed(exe, rest)
    ensures exe != "" && exe[|exe| - 1] != '\\'
  {
    NameIsRead(exe, rest, false);
    assert exe + "" == exe;
  }

  /** The name a program is started under is what was quoted, exactly unless it has a mark or ends in a backslash. */
  lemma ProgramNameIsReadIff(exe: string, rest: string)
    requires EndsArg(rest)
    ensures ProgramName(Quote(exe) + rest, false).arg == exe <==>
              '"' !in exe && (exe == "" || exe[|exe| - 1] != '\\')
    ensures '"' !in exe ==> ProgramName(Quote(exe) + rest, false).rest == rest
  {
    hide ProgramName, Escaped, NeedsQuotes, EndsArg;
    NameHasNoMark(Quote(exe) + rest, false);
    if '"' !in exe {
      EscapedWithoutMarks(exe);
      if NeedsQuotes(exe) {
        QuotedNameIsRead(exe, rest);
      } else {
        BareNameIsRead(exe, rest);
      }
    }
  }

  /**
   * The whole command line is read as it was put together, exactly when the
   * program's name has no quotation mark and does not end in a backslash.
   */
  lemma ProgramAndArgsIff(exe: string, values: seq<string>)
    ensures ProgramAndArgs(CommandLine([exe] + values)) == [exe] + values <==>
              '"' !in exe && (exe == "" || exe[|exe| - 1] != '\\')
  {
    var rest := if values == [] then "" else " " + CommandLine(values);
    assert ([exe] + values)[1..] == values;
    assert CommandLine([exe] + values) == Quote(exe) + rest;
    ProgramNameIsReadIff(exe, rest);
    ArgumentsRoundTrip(values);
    hide Quote, ProgramName, CommandLine;
    if values != [] {
      assert rest[1..] == CommandLine(values);
    }
    assert ParseArgs(rest) == values;
  }
}

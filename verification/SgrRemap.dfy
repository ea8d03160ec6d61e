/**
 * What the LCD adapter rewrites SGR sequences to: without a theme, reverse video
 * becomes explicit colours; with the gruvbox theme, every colour becomes one of
 * the palette. The palette search itself is a parameter.
 */
module SgrRemap {
  import opened Sequences
  import opened SgrRewriter

  // ---- decimal numbers and parameter lists

  function Digit(n: nat): (c: char)
    requires n < 10
    ensures IsDigit(c) && c as int - '0' as int == n
  {
    ('0' as int + n) as char
  }

  function Decimal(n: nat): (s: string)
    ensures s != "" && DigitsOnly(s)
  {
    if n < 10 then [Digit(n)] else Decimal(n / 10) + [Digit(n % 10)]
  }

  /** Python's `int` on a string of decimal digits. */
  function ValueOf(s: string): nat
    requires DigitsOnly(s)
  {
    if s == "" then 0
    else
      var last := s[|s| - 1];
      assert IsDigit(last);
      10 * ValueOf(s[..|s| - 1]) + (last as int - '0' as int)
  }

  lemma {:induction false} ValueOfDecimal(n: nat)
    ensures ValueOf(Decimal(n)) == n
  {
    if n >= 10 {
      ValueOfDecimal(n / 10);
      var s := Decimal(n);
      assert s[..|s| - 1] == Decimal(n / 10);
    } else {
      assert Decimal(n)[..0] == "";
    }
  }

  predicate IsSeparator(c: char) {
    c == ';' || c == ':'
  }

  predicate ParamsOnly(raw: string) {
    forall i :: 0 <= i < |raw| ==> IsParam(raw[i])
  }

  predicate DigitsOnly(s: string) {
    forall i :: 0 <= i < |s| ==> IsDigit(s[i])
  }

  function FirstSeparator(raw: string): (i: nat)
    ensures i <= |raw|
    ensures i < |raw| ==> IsSeparator(raw[i])
    ensures forall j :: 0 <= j < i ==> !IsSeparator(raw[j])
  {
    if raw == "" || IsSeparator(raw[0]) then 0 else 1 + FirstSeparator(raw[1..])
  }

  /** `raw.replace(":", ";").split(";")` */
  function Parts(raw: string): (parts: seq<string>)
    ensures parts != []
    ensures ParamsOnly(raw) ==> forall i :: 0 <= i < |parts| ==> DigitsOnly(parts[i])
    decreases |raw|
  {
    var i := FirstSeparator(raw);
    if i == |raw| then [raw] else [raw[..i]] + Parts(raw[i + 1..])
  }

  function Values(parts: seq<string>): (codes: seq<nat>)
    requires forall i :: 0 <= i < |parts| ==> DigitsOnly(parts[i])
    ensures |codes| == |parts|
  {
    seq(|parts|, i requires 0 <= i < |parts| => ValueOf(parts[i]))
  }

  /** The numbers of a parameter string; a missing one is 0. */
  function Codes(raw: string): (codes: seq<nat>)
    requires ParamsOnly(raw)
    ensures codes != []
  {
    Values(Parts(raw))
  }

  method ParseSgrParams(raw: string) returns (params: seq<nat>)
    requires ParamsOnly(raw)
    ensures params == Codes(raw)
  {
    params := [];
    var parts := Parts(raw);
    for i := 0 to |parts|
      invariant |params| == i
      invariant forall j :: 0 <= j < i ==> params[j] == ValueOf(parts[j])
    {
      if parts[i] == "" {
        params := params + [0];
      } else {
        params := params + [ValueOf(parts[i])];
      }
    }
  }

  function Join(codes: seq<nat>): (s: string)
    requires codes != []
    ensures s != "" && ParamsOnly(s)
  {
    if |codes| == 1 then Decimal(codes[0]) else Decimal(codes[0]) + ";" + Join(codes[1..])
  }

  lemma PartsOfList(first: string, more: string)
    requires DigitsOnly(first)
    ensures Parts(first + ";" + more) == [first] + Parts(more)
  {
    var raw := first + ";" + more;
    assert raw == first + (";" + more);
    FirstSeparatorAfter(first, ";" + more);
    assert raw[|first| + 1..] == more;
    assert raw[..|first|] == first;
  }

  lemma PartsOfOne(first: string)
    requires DigitsOnly(first)
    ensures Parts(first) == [first]
  {
    FirstSeparatorAfter(first, "");
    assert first + "" == first;
  }

  /** Printing a parameter list and parsing it back changes nothing. */
  lemma {:induction false} CodesOfJoin(codes: seq<nat>)
    requires codes != []
    ensures Codes(Join(codes)) == codes
  {
    hide Parts, Decimal, ValueOf, DigitsOnly, ParamsOnly;
    var first := Decimal(codes[0]);
    ValueOfDecimal(codes[0]);
    if |codes| == 1 {
      PartsOfOne(first);
      assert codes == [codes[0]];
    } else {
      PartsOfList(first, Join(codes[1..]));
      CodesOfJoin(codes[1..]);
      ValuesCons(first, Parts(Join(codes[1..])));
      assert codes == [codes[0]] + codes[1..];
    }
  }

  lemma ValuesCons(first: string, rest: seq<string>)
    requires DigitsOnly(first) && forall i :: 0 <= i < |rest| ==> DigitsOnly(rest[i])
    ensures forall i :: 0 <= i <= |rest| ==> DigitsOnly(([first] + rest)[i])
    ensures Values([first] + rest) == [ValueOf(first)] + Values(rest)
  {
  }

  lemma {:induction false} FirstSeparatorAfter(digits: string, more: string)
    requires DigitsOnly(digits) && (more == "" || IsSeparator(more[0]))
    ensures FirstSeparator(digits + more) == |digits|
  {
    if digits == "" {
      assert digits + more == more;
    } else {
      assert (digits + more)[1..] == digits[1..] + more;
      FirstSeparatorAfter(digits[1..], more);
    }
  }

  /** The sequence with these parameters. */
  function Sgr(codes: seq<nat>): (s: string)
    requires codes != []
    ensures IsMatch(s, |s|) && s[2..|s| - 1] == Join(codes)
  {
    var s := [ESC, '['] + Join(codes) + "m";
    assert forall i :: 2 <= i < |s| - 1 ==> s[i] == Join(codes)[i - 2];
    s
  }

  // ---- without a theme: reverse video becomes colours

  const REVERSE_ON: seq<nat> := [38, 2, 249, 245, 215, 48, 2, 80, 73, 69]
  const REVERSE_OFF: seq<nat> := [39, 49]

  function LcdCode(code: nat): (out: seq<nat>)
    ensures out != [] && 7 !in out && 27 !in out
  {
    if code == 7 then REVERSE_ON else if code == 27 then REVERSE_OFF else [code]
  }

  function LcdCodes(params: seq<nat>): (out: seq<nat>)
    ensures 7 !in out && 27 !in out
    ensures params != [] ==> out != []
  {
    if params == [] then [] else LcdCodes(params[..|params| - 1]) + LcdCode(params[|params| - 1])
  }

  function RemapForLcd(raw: string): string {
    if ParamsOnly(raw) then Sgr(LcdCodes(Codes(raw))) else raw
  }

  /** The rewriting loop over one sequence's parameters. */
  method RemapSgrForLcdTerminal(raw: string) returns (r: string)
    requires ParamsOnly(raw)
    ensures r == RemapForLcd(raw)
  {
    hide Sgr, Codes;
    var params := ParseSgrParams(raw);
    var out: seq<nat> := [];
    var i := 0;
    while i < |params|
      invariant i <= |params| && out == LcdCodes(params[..i])
    {
      assert params[..i + 1][..i] == params[..i];
      var code := params[i];
      if code == 7 {
        out := out + [38, 2, 249, 245, 215] + [48, 2, 80, 73, 69];
      } else if code == 27 {
        out := out + [39, 49];
      } else {
        out := out + [code];
      }
      i := i + 1;
    }
    assert params[..|params|] == params;
    r := Sgr(out);
  }

  /** Parameters without 7 and 27 are left alone. */
  lemma {:induction false} LcdCodesFixpoint(params: seq<nat>)
    requires 7 !in params && 27 !in params
    ensures LcdCodes(params) == params
  {
    if params != [] {
      LcdCodesFixpoint(params[..|params| - 1]);
    }
  }

  // ---- the remap of a whole text

  /** The parameter lists of the sequences in `s`, in order. */
  function SgrLists(s: string): seq<seq<nat>>
    decreases |s|
  {
    if s == "" then []
    else
      var n := MatchLength(s);
      if n > 0 then [Codes(s[2..n - 1])] + SgrLists(s[n..]) else SgrLists(s[1..])
  }

  /** The text without its sequences, the adapter's `_strip_sgr`. */
  function StripSgr(s: string): string {
    Substitute(raw => "", s)
  }

  function LcdRemap(s: string): string {
    Substitute(RemapForLcd, s)
  }

  function LcdLists(lists: seq<seq<nat>>): seq<seq<nat>> {
    seq(|lists|, i requires 0 <= i < |lists| => LcdCodes(lists[i]))
  }

  lemma LcdRemapOfMatch(s: string)
    requires MatchLength(s) > 0
    ensures var n := MatchLength(s);
            LcdRemap(s) == Sgr(LcdCodes(Codes(s[2..n - 1]))) + LcdRemap(s[n..])
  {
  }

  lemma LcdRemapOfOther(s: string)
    requires s != "" && MatchLength(s) == 0
    ensures LcdRemap(s) == [s[0]] + LcdRemap(s[1..])
  {
  }

  /** A stretch of output without escapes was copied from the input. */
  lemma {:induction false} PlainStretchIsCopied(s: string, n: nat)
    requires n <= |LcdRemap(s)| && forall i :: 0 <= i < n ==> LcdRemap(s)[i] != ESC
    ensures n <= |s| && forall i :: 0 <= i < n ==> s[i] == LcdRemap(s)[i]
  {
    if n == 0 {
      return;
    }
    if MatchLength(s) > 0 {
      LcdRemapOfMatch(s);
      hide Substitute, LcdRemap;
      CopyCannotStartHere(s, n);
    } else {
      LcdRemapOfOther(s);
      hide Substitute, LcdRemap;
      var rest := LcdRemap(s[1..]);
      assert forall i :: 0 <= i < n - 1 ==> rest[i] == LcdRemap(s)[i + 1];
      PlainStretchIsCopied(s[1..], n - 1);
      assert forall i :: 0 < i < n ==> s[i] == s[1..][i - 1];
    }
  }

  lemma CopyCannotStartHere(s: string, n: nat)
    requires MatchLength(s) > 0
    ensures LcdRemap(s) != "" && LcdRemap(s)[0] == ESC
  {
    LcdRemapOfMatch(s);
  }

  /** A sequence whose first character was copied was there in full. */
  lemma MatchWasThere(s: string, n: nat)
    requires s != "" && IsMatch([s[0]] + LcdRemap(s[1..]), n)
    ensures IsMatch(s, n)
  {
    hide Substitute, LcdRemap, MatchLength;
    var u, rest := [s[0]] + LcdRemap(s[1..]), LcdRemap(s[1..]);
    assert forall i :: 0 <= i < n - 1 ==> rest[i] == u[i + 1];
    PlainStretchIsCopied(s[1..], n - 1);
    assert forall i :: 0 < i < n ==> s[i] == s[1..][i - 1];
  }

  /** Rewriting never fuses fragments into a sequence that was not there. */
  lemma OtherStaysOther(s: string)
    requires s != "" && MatchLength(s) == 0
    ensures MatchLength(LcdRemap(s)) == 0
  {
    LcdRemapOfOther(s);
    hide Substitute, LcdRemap, IsMatch;
    if MatchLength(LcdRemap(s)) > 0 {
      MatchWasThere(s, MatchLength(LcdRemap(s)));
    }
  }

  lemma MatchStaysMatch(codes: seq<nat>, more: string)
    requires codes != []
    ensures var u := Sgr(codes) + more;
            && MatchLength(u) == |Sgr(codes)|
            && u[2..|Sgr(codes)| - 1] == Join(codes)
            && u[|Sgr(codes)|..] == more
            && Codes(u[2..|Sgr(codes)| - 1]) == codes
  {
    var s := Sgr(codes);
    var u := s + more;
    assert forall i :: 0 <= i < |s| ==> u[i] == s[i];
    assert IsMatch(u, |s|);
    assert u[2..|s| - 1] == s[2..|s| - 1];
    CodesOfJoin(codes);
  }

  /**
   * The remap rewrites each sequence's parameters and nothing else: the visible
   * text is untouched, and no sequence appears or disappears.
   */
  lemma {:induction false} LcdRemapActsOnParameters(s: string)
    ensures SgrLists(LcdRemap(s)) == LcdLists(SgrLists(s))
    ensures StripSgr(LcdRemap(s)) == StripSgr(s)
    decreases |s|
  {
    if s == "" {
      return;
    }
    hide LcdRemap, StripSgr, SgrLists, LcdLists;
    if MatchLength(s) > 0 {
      LcdRemapActsOnParameters(s[MatchLength(s)..]);
      MatchActsOnParameters(s);
    } else {
      LcdRemapActsOnParameters(s[1..]);
      OtherActsOnParameters(s);
    }
  }

  lemma MatchActsOnParameters(s: string)
    requires MatchLength(s) > 0
    requires var t := s[MatchLength(s)..];
             SgrLists(LcdRemap(t)) == LcdLists(SgrLists(t)) && StripSgr(LcdRemap(t)) == StripSgr(t)
    ensures SgrLists(LcdRemap(s)) == LcdLists(SgrLists(s))
    ensures StripSgr(LcdRemap(s)) == StripSgr(s)
  {
    hide LcdRemap, StripSgr, SgrLists, MatchLength, Codes, LcdCodes, LcdLists;
    var t := s[MatchLength(s)..];
    MatchRemapped(s);
    StripMatch(LcdRemap(s));
    StripMatch(s);
    ListsMatch(LcdRemap(s));
    ListsMatch(s);
    LcdListsCons(Codes(s[2..MatchLength(s) - 1]), SgrLists(t));
  }

  lemma LcdListsCons(first: seq<nat>, lists: seq<seq<nat>>)
    ensures LcdLists([first] + lists) == [LcdCodes(first)] + LcdLists(lists)
  {
  }

  /** A rewritten sequence is still a sequence, with the rewritten parameters. */
  lemma MatchRemapped(s: string)
    requires MatchLength(s) > 0
    ensures var n, u := MatchLength(s), LcdRemap(s);
            && MatchLength(u) > 0
            && Codes(u[2..MatchLength(u) - 1]) == LcdCodes(Codes(s[2..n - 1]))
            && u[MatchLength(u)..] == LcdRemap(s[n..])
  {
    LcdRemapOfMatch(s);
    hide LcdRemap, Codes, LcdCodes, MatchLength;
    var n := MatchLength(s);
    MatchStaysMatch(LcdCodes(Codes(s[2..n - 1])), LcdRemap(s[n..]));
  }

  lemma ListsMatch(s: string)
    requires MatchLength(s) > 0
    ensures SgrLists(s) == [Codes(s[2..MatchLength(s) - 1])] + SgrLists(s[MatchLength(s)..])
  {
  }

  lemma ListsOther(s: string)
    requires s != "" && MatchLength(s) == 0
    ensures SgrLists(s) == SgrLists(s[1..])
  {
  }

  lemma OtherActsOnParameters(s: string)
    requires s != "" && MatchLength(s) == 0
    requires var t := s[1..];
             SgrLists(LcdRemap(t)) == LcdLists(SgrLists(t)) && StripSgr(LcdRemap(t)) == StripSgr(t)
    ensures SgrLists(LcdRemap(s)) == LcdLists(SgrLists(s))
    ensures StripSgr(LcdRemap(s)) == StripSgr(s)
  {
    LcdRemapOfOther(s);
    OtherStaysOther(s);
    StripOther(LcdRemap(s));
    StripOther(s);
    ListsOther(LcdRemap(s));
    ListsOther(s);
    hide LcdRemap, StripSgr, SgrLists, MatchLength;
    assert LcdRemap(s)[1..] == LcdRemap(s[1..]);
  }

  lemma StripMatch(s: string)
    requires MatchLength(s) > 0
    ensures StripSgr(s) == StripSgr(s[MatchLength(s)..])
  {
  }

  lemma StripOther(s: string)
    requires s != "" && MatchLength(s) == 0
    ensures StripSgr(s) == [s[0]] + StripSgr(s[1..])
  {
  }

  /** After the remap no sequence of the text carries parameter 7 or 27. */
  lemma NoReverseVideoLeft(s: string)
    ensures forall i :: 0 <= i < |SgrLists(LcdRemap(s))| ==>
      7 !in SgrLists(LcdRemap(s))[i] && 27 !in SgrLists(LcdRemap(s))[i]
  {
    LcdRemapActsOnParameters(s);
  }

  /** Remapping a remapped text changes nothing. */
  lemma {:induction false} LcdRemapIdempotent(s: string)
    ensures LcdRemap(LcdRemap(s)) == LcdRemap(s)
    decreases |s|
  {
    if s == "" {
      return;
    }
    var n := MatchLength(s);
    if n > 0 {
      LcdRemapOfMatch(s);
      var codes := LcdCodes(Codes(s[2..n - 1]));
      MatchStaysMatch(codes, LcdRemap(s[n..]));
      LcdRemapOfMatch(LcdRemap(s));
      LcdCodesFixpoint(codes);
      LcdRemapIdempotent(s[n..]);
    } else {
      LcdRemapOfOther(s);
      OtherStaysOther(s);
      LcdRemapOfOther(LcdRemap(s));
      LcdRemapIdempotent(s[1..]);
      hide Substitute, MatchLength;
      assert LcdRemap(s)[1..] == LcdRemap(s[1..]);
    }
  }

  // ---- with the gruvbox theme

  datatype Rgb = Rgb(r: nat, g: nat, b: nat)

  /** The searches for the nearest palette colour and in the 256-colour cube. */
  datatype Palette = Palette(nearest: Rgb -> Rgb, indexed: nat -> Rgb)

  const THEME_FG: Rgb := Rgb(235, 219, 178)
  const THEME_BG: Rgb := Rgb(40, 40, 40)
  const THEME_SOFT_BG: Rgb := Rgb(60, 56, 54)

  /** The themed versions of the 16 basic colours. */
  const BASIC: seq<Rgb> :=
    [Rgb(40, 40, 40), Rgb(204, 36, 29), Rgb(152, 151, 26), Rgb(215, 153, 33),
     Rgb(69, 133, 136), Rgb(177, 98, 134), Rgb(104, 157, 106), Rgb(168, 153, 132),
     Rgb(146, 131, 116), Rgb(251, 73, 52), Rgb(184, 187, 38), Rgb(250, 189, 47),
     Rgb(131, 165, 152), Rgb(211, 134, 155), Rgb(142, 192, 124), Rgb(235, 219, 178)]

  function RgbCodes(kind: nat, c: Rgb): (out: seq<nat>)
    ensures |out| == 5
  {
    [kind, 2, c.r, c.g, c.b]
  }

  function IndexedColour(p: Palette, n: nat): Rgb {
    if n <= 15 then BASIC[n] else p.nearest(p.indexed(n))
  }

  /** A colour on the foreground; on the background always the soft one. */
  function OnLayer(kind: nat, c: Rgb): seq<nat> {
    RgbCodes(kind, if kind == 38 then c else THEME_SOFT_BG)
  }

  predicate IsColourCode(code: nat) {
    code == 38 || code == 48
  }

  /** How many parameters the first command takes: a colour command takes its arguments, if they are all there. */
  function CommandLength(params: seq<nat>): (n: nat)
    requires params != []
    ensures 1 <= n <= |params|
  {
    if IsColourCode(params[0]) && 4 < |params| && params[1] == 2 then 5
    else if IsColourCode(params[0]) && 2 < |params| && params[1] == 5 then 3
    else 1
  }

  /** What the first command of a list becomes, and how many parameters it takes. */
  function GruvboxHead(p: Palette, params: seq<nat>): (r: (seq<nat>, nat))
    requires params != []
    ensures 1 <= r.1 <= |params|
  {
    var code := params[0];
    if code == 0 then ([0] + RgbCodes(38, THEME_FG) + RgbCodes(48, THEME_BG), 1)
    else if code == 39 then (RgbCodes(38, THEME_FG), 1)
    else if code == 49 then (RgbCodes(48, THEME_BG), 1)
    else if code == 7 || code == 27 then ([], 1)
    else if 30 <= code <= 37 then (RgbCodes(38, BASIC[code - 30]), 1)
    else if 90 <= code <= 97 then (RgbCodes(38, BASIC[code - 90 + 8]), 1)
    else if 40 <= code <= 47 || 100 <= code <= 107 then (RgbCodes(48, THEME_SOFT_BG), 1)
    else if IsColourCode(code) && 4 < |params| && params[1] == 2 then
      (OnLayer(code, p.nearest(Rgb(params[2], params[3], params[4]))), 5)
    else if IsColourCode(code) && 2 < |params| && params[1] == 5 then
      (OnLayer(code, IndexedColour(p, params[2])), 3)
    else ([code], 1)
  }

  function GruvboxCodes(p: Palette, params: seq<nat>): seq<nat>
    decreases |params|
  {
    if params == [] then []
    else
      var head := GruvboxHead(p, params);
      head.0 + GruvboxCodes(p, params[head.1..])
  }

  /** What ESC[m becomes: three sequences, a reset and the two theme colours. */
  function ThemeReset(): string {
    Sgr([0]) + Sgr(RgbCodes(38, THEME_FG)) + Sgr(RgbCodes(48, THEME_BG))
  }

  function RemapForGruvbox(p: Palette, raw: string): string {
    if raw == "" then ThemeReset()
    else if !ParamsOnly(raw) then raw
    else
      var out := GruvboxCodes(p, Codes(raw));
      if out == [] then "" else Sgr(out)
  }

  method RemapSgrToGruvbox(p: Palette, raw: string) returns (r: string)
    requires ParamsOnly(raw)
    ensures r == RemapForGruvbox(p, raw)
  {
    if raw == "" {
      return ThemeReset();
    }
    var params := ParseSgrParams(raw);
    var out := RemapParams(p, params);
    r := if out == [] then "" else Sgr(out);
  }

  /** The rewriting loop: an index that skips over colour arguments. */
  method RemapParams(p: Palette, params: seq<nat>) returns (out: seq<nat>)
    ensures out == GruvboxCodes(p, params)
  {
    hide GruvboxCodes;
    out := [];
    var i := 0;
    while i < |params|
      invariant i <= |params|
      invariant out + GruvboxCodes(p, params[i..]) == GruvboxCodes(p, params)
    {
      ghost var rest, head := params[i..], GruvboxHead(p, params[i..]);
      ghost var before, at := out, i;
      assert rest[0] == params[i];
      assert |rest| > 2 ==> rest[1] == params[i + 1] && rest[2] == params[i + 2];
      assert |rest| > 4 ==> rest[3] == params[i + 3] && rest[4] == params[i + 4];
      var code := params[i];
      if code == 0 {
        out := out + ([0] + RgbCodes(38, THEME_FG) + RgbCodes(48, THEME_BG));
      } else if code == 39 {
        out := out + RgbCodes(38, THEME_FG);
      } else if code == 49 {
        out := out + RgbCodes(48, THEME_BG);
      } else if code == 7 || code == 27 {
        out := out + [];
      } else if 30 <= code <= 37 {
        out := out + RgbCodes(38, BASIC[code - 30]);
      } else if 90 <= code <= 97 {
        out := out + RgbCodes(38, BASIC[code - 90 + 8]);
      } else if 40 <= code <= 47 {
        out := out + RgbCodes(48, THEME_SOFT_BG);
      } else if 100 <= code <= 107 {
        out := out + RgbCodes(48, THEME_SOFT_BG);
      } else if IsColourCode(code) && i + 4 < |params| && params[i + 1] == 2 {
        out := out + OnLayer(code, p.nearest(Rgb(params[i + 2], params[i + 3], params[i + 4])));
        i := i + 4;
      } else if IsColourCode(code) && i + 2 < |params| && params[i + 1] == 5 {
        out := out + OnLayer(code, IndexedColour(p, params[i + 2]));
        i := i + 2;
      } else {
        out := out + [code];
      }
      i := i + 1;
      assert out == before + head.0 && i == at + head.1;
      GruvboxAdvances(p, before, rest);
      assert rest[head.1..] == params[i..];
    }
    assert params[i..] == [];
    GruvboxNothing(p);
  }

  lemma GruvboxNothing(p: Palette)
    ensures GruvboxCodes(p, []) == []
  {
  }

  lemma GruvboxAdvances(p: Palette, out: seq<nat>, rest: seq<nat>)
    requires rest != []
    ensures var head := GruvboxHead(p, rest);
            out + GruvboxCodes(p, rest) == out + head.0 + GruvboxCodes(p, rest[head.1..])
  {
    hide GruvboxHead;
  }

  // ---- what the themed sequences mean to a terminal

  datatype Colour = Default | Basic(n: nat) | Indexed(i: nat) | True(c: Rgb)

  datatype Pen = Pen(fg: Colour, bg: Colour, inverse: bool)

  function WithLayer(pen: Pen, kind: nat, c: Colour): Pen {
    if kind == 38 then pen.(fg := c) else pen.(bg := c)
  }

  /** The effect of the first command of a list, and how many parameters it takes. */
  function DrawHead(pen: Pen, codes: seq<nat>): (r: (Pen, nat))
    requires codes != []
    ensures 1 <= r.1 <= |codes|
  {
    var code := codes[0];
    if code == 0 then (Pen(Default, Default, false), 1)
    else if code == 7 then (pen.(inverse := true), 1)
    else if code == 27 then (pen.(inverse := false), 1)
    else if 30 <= code <= 37 then (pen.(fg := Basic(code - 30)), 1)
    else if 90 <= code <= 97 then (pen.(fg := Basic(code - 90 + 8)), 1)
    else if 40 <= code <= 47 then (pen.(bg := Basic(code - 40)), 1)
    else if 100 <= code <= 107 then (pen.(bg := Basic(code - 100 + 8)), 1)
    else if code == 39 then (pen.(fg := Default), 1)
    else if code == 49 then (pen.(bg := Default), 1)
    else if IsColourCode(code) && 4 < |codes| && codes[1] == 2 then
      (WithLayer(pen, code, True(Rgb(codes[2], codes[3], codes[4]))), 5)
    else if IsColourCode(code) && 2 < |codes| && codes[1] == 5 then
      (WithLayer(pen, code, Indexed(codes[2])), 3)
    else (pen, 1)
  }

  /** The pen after a list of SGR parameters. */
  function Draw(pen: Pen, codes: seq<nat>): Pen
    decreases |codes|
  {
    if codes == [] then pen
    else
      var head := DrawHead(pen, codes);
      Draw(head.0, codes[head.1..])
  }

  // ---- colour commands without their arguments

  /** A 38 or 48 that stands alone, because its arguments are missing or cut short. */
  predicate IsStray(params: seq<nat>)
    requires params != []
  {
    IsColourCode(params[0]) && CommandLength(params) == 1
  }

  /** Reverse video leaves no trace in the output. */
  function SkipReverse(params: seq<nat>): seq<nat> {
    if params != [] && (params[0] == 7 || params[0] == 27) then SkipReverse(params[1..]) else params
  }

  /** How many parameters the first command becomes. */
  function HeadLength(params: seq<nat>): nat
    requires params != []
  {
    var code := params[0];
    if code == 0 then 11
    else if code == 7 || code == 27 then 0
    else if code == 39 || code == 49 || 30 <= code <= 37 || 90 <= code <= 97 || 40 <= code <= 47 || 100 <= code <= 107
            || CommandLength(params) > 1 then 5
    else 1
  }

  function EmittedLength(params: seq<nat>): nat
    decreases |params|
  {
    if params == [] then 0 else HeadLength(params) + EmittedLength(params[CommandLength(params)..])
  }

  /** What follows is written out so that a 38 or 48 before it takes it for its arguments. */
  predicate ReadsOn(params: seq<nat>) {
    var rest := SkipReverse(params);
    rest != [] && ((rest[0] == 2 && EmittedLength(rest) > 3) || (rest[0] == 5 && EmittedLength(rest) > 1))
  }

  /** Some stray colour command takes what follows for its arguments. */
  predicate Leaks(params: seq<nat>)
    decreases |params|
  {
    params != [] && ((IsStray(params) && ReadsOn(params[1..])) || Leaks(params[CommandLength(params)..]))
  }

  /** The same on the output: these codes complete a 38 or 48 in front of them. */
  predicate Completes(codes: seq<nat>) {
    (|codes| > 3 && codes[0] == 2) || (|codes| > 1 && codes[0] == 5)
  }

  lemma HeadIs(p: Palette, pen: Pen, params: seq<nat>)
    requires params != []
    ensures GruvboxHead(p, params).1 == DrawHead(pen, params).1 == CommandLength(params)
    ensures |GruvboxHead(p, params).0| == HeadLength(params)
    ensures GruvboxHead(p, params).0 != [] ==>
      (GruvboxHead(p, params).0[0] == 2 <==> params[0] == 2) && (GruvboxHead(p, params).0[0] == 5 <==> params[0] == 5)
  {
  }

  lemma {:induction false} EmittedLengthIs(p: Palette, params: seq<nat>)
    ensures |GruvboxCodes(p, params)| == EmittedLength(params)
    decreases |params|
  {
    if params != [] {
      HeadIs(p, Pen(Default, Default, false), params);
      hide GruvboxHead, CommandLength, HeadLength;
      EmittedLengthIs(p, params[CommandLength(params)..]);
    }
  }

  lemma {:induction false} ReadsOnIsCompletes(p: Palette, params: seq<nat>)
    ensures ReadsOn(params) <==> Completes(GruvboxCodes(p, params))
  {
    if params == [] {
      return;
    }
    EmittedLengthIs(p, params);
    HeadIs(p, Pen(Default, Default, false), params);
    if params[0] == 7 || params[0] == 27 {
      ReadsOnIsCompletes(p, params[1..]);
      assert [] + GruvboxCodes(p, params[1..]) == GruvboxCodes(p, params[1..]);
    } else {
      HeadLengthIsPositive(params);
      hide GruvboxHead, EmittedLength, HeadLength;
    }
  }

  lemma HeadLengthIsPositive(params: seq<nat>)
    requires params != [] && params[0] != 7 && params[0] != 27
    ensures HeadLength(params) > 0
  {
  }

  /** The commands a terminal reads in a list. */
  function Commands(codes: seq<nat>): seq<seq<nat>>
    decreases |codes|
  {
    if codes == [] then []
    else
      var n := CommandLength(codes);
      [codes[..n]] + Commands(codes[n..])
  }

  /** The commands the rewriting means to write. */
  function Intended(p: Palette, params: seq<nat>): seq<seq<nat>>
    decreases |params|
  {
    if params == [] then []
    else Commands(GruvboxHead(p, params).0) + Intended(p, params[CommandLength(params)..])
  }

  lemma CommandsCons(command: seq<nat>, more: seq<nat>)
    requires command != [] && CommandLength(command + more) == |command|
    ensures Commands(command + more) == [command] + Commands(more)
  {
    assert (command + more)[..|command|] == command && (command + more)[|command|..] == more;
  }

  lemma CommandsOfRgb(kind: nat, c: Rgb, more: seq<nat>)
    requires IsColourCode(kind)
    ensures Commands(RgbCodes(kind, c) + more) == [RgbCodes(kind, c)] + Commands(more)
    ensures Commands(RgbCodes(kind, c)) == [RgbCodes(kind, c)]
  {
    CommandsCons(RgbCodes(kind, c), more);
    CommandsCons(RgbCodes(kind, c), []);
    assert RgbCodes(kind, c) + [] == RgbCodes(kind, c);
  }

  lemma CommandsOfOne(code: nat, more: seq<nat>)
    requires IsColourCode(code) ==> !Completes(more)
    ensures Commands([code] + more) == [[code]] + Commands(more)
    ensures Commands([code]) == [[code]]
  {
    CommandsCons([code], more);
    CommandsCons([code], []);
    assert [code] + [] == [code];
  }

  lemma CommandsOfReset(more: seq<nat>)
    ensures var reset := [0] + RgbCodes(38, THEME_FG) + RgbCodes(48, THEME_BG);
            Commands(reset + more) == Commands(reset) + Commands(more)
  {
    var fg, bg := RgbCodes(38, THEME_FG), RgbCodes(48, THEME_BG);
    hide Commands, RgbCodes, Completes;
    ConcatRight([0], fg, bg, more);
    CommandsOfOne(0, fg + (bg + more));
    CommandsOfRgb(38, THEME_FG, bg + more);
    CommandsOfRgb(48, THEME_BG, more);
    assert [0] + fg + bg == [0] + (fg + bg);
    CommandsOfOne(0, fg + bg);
    CommandsOfRgb(38, THEME_FG, bg);
    ConcatRight([[0]], [fg], [bg], Commands(more));
  }

  lemma ConcatRight<T>(a: seq<T>, b: seq<T>, c: seq<T>, d: seq<T>)
    ensures a + b + c + d == a + (b + (c + d))
  {
  }

  /** A command that is not a stray before its arguments is read back as it was written. */
  lemma HeadIsReadBack(p: Palette, params: seq<nat>, more: seq<nat>)
    requires params != [] && (IsStray(params) ==> !Completes(more))
    ensures var head := GruvboxHead(p, params).0; Commands(head + more) == Commands(head) + Commands(more)
  {
    var head := GruvboxHead(p, params).0;
    hide Commands;
    if params[0] == 0 {
      CommandsOfReset(more);
    } else if head == [] {
      assert head + more == more;
      NoCommands();
    } else if |head| == 1 {
      CommandsOfOne(head[0], more);
      assert head == [head[0]];
    } else {
      CommandsOfRgb(head[0], Rgb(head[2], head[3], head[4]), more);
      assert head == RgbCodes(head[0], Rgb(head[2], head[3], head[4]));
    }
  }

  lemma NoCommands()
    ensures Commands([]) == []
  {
  }

  lemma StrayIsNotReadBack(p: Palette, params: seq<nat>, more: seq<nat>, rest: seq<seq<nat>>)
    requires params != [] && IsStray(params) && Completes(more)
    ensures var head := GruvboxHead(p, params).0; Commands(head + more) != Commands(head) + rest
  {
    var head := GruvboxHead(p, params).0;
    assert head == [params[0]];
    CommandsOfOne(params[0], []);
    assert CommandLength(head + more) > 1;
    assert |Commands(head + more)[0]| > 1;
    assert (Commands(head) + rest)[0] == head;
  }

  /** The terminal reads exactly the commands the rewriting means to write, unless a stray colour command leaks. */
  lemma {:induction false} ReadAsIntendedIff(p: Palette, params: seq<nat>)
    ensures Commands(GruvboxCodes(p, params)) == Intended(p, params) <==> !Leaks(params)
    decreases |params|
  {
    if params == [] {
      return;
    }
    var rest := params[CommandLength(params)..];
    HeadIs(p, Pen(Default, Default, false), params);
    ReadAsIntendedIff(p, rest);
    ReadsOnIsCompletes(p, rest);
    hide GruvboxHead, Commands, Completes, ReadsOn, CommandLength;
    if IsStray(params) && Completes(GruvboxCodes(p, rest)) {
      StrayIsNotReadBack(p, params, GruvboxCodes(p, rest), Intended(p, rest));
    } else {
      HeadIsReadBack(p, params, GruvboxCodes(p, rest));
      SameTail(Commands(GruvboxHead(p, params).0), Commands(GruvboxCodes(p, rest)), Intended(p, rest));
    }
  }

  lemma SameTail(front: seq<seq<nat>>, a: seq<seq<nat>>, b: seq<seq<nat>>)
    ensures front + a == front + b <==> a == b
  {
    if front + a == front + b {
      assert a == (front + a)[|front|..] == (front + b)[|front|..] == b;
    }
  }

  function ThemedFg(p: Palette, c: Colour): Colour {
    match c
    case Default => True(THEME_FG)
    case Basic(n) => if n < 16 then True(BASIC[n]) else c
    case Indexed(i) => True(if i <= 15 then BASIC[i] else p.nearest(p.indexed(i)))
    case True(rgb) => True(p.nearest(rgb))
  }

  /** The themed pen: palette colours, a dark or soft background, never reversed. */
  function ThemedPen(p: Palette, pen: Pen): Pen {
    Pen(ThemedFg(p, pen.fg), if pen.bg == Default then True(THEME_BG) else True(THEME_SOFT_BG), false)
  }

  lemma DrawRgb(pen: Pen, kind: nat, c: Rgb, more: seq<nat>)
    requires IsColourCode(kind)
    ensures Draw(pen, RgbCodes(kind, c) + more) == Draw(WithLayer(pen, kind, True(c)), more)
  {
    var codes := RgbCodes(kind, c) + more;
    assert codes[0] == kind && codes[1] == 2 && codes[2] == c.r && codes[3] == c.g && codes[4] == c.b;
    assert codes[5..] == more;
  }

  lemma DrawOne(pen: Pen, code: nat, more: seq<nat>)
    requires !IsColourCode(code)
    ensures Draw(pen, [code] + more) == Draw(DrawHead(pen, [code]).0, more)
  {
    assert ([code] + more)[1..] == more;
  }

  lemma DrawReset(pen: Pen, more: seq<nat>)
    ensures Draw(pen, [0] + RgbCodes(38, THEME_FG) + RgbCodes(48, THEME_BG) + more)
         == Draw(Pen(True(THEME_FG), True(THEME_BG), false), more)
  {
    var fg, bg := RgbCodes(38, THEME_FG), RgbCodes(48, THEME_BG);
    assert [0] + fg + bg + more == [0] + (fg + (bg + more));
    DrawOne(pen, 0, fg + (bg + more));
    DrawRgb(Pen(Default, Default, false), 38, THEME_FG, bg + more);
    DrawRgb(Pen(True(THEME_FG), Default, false), 48, THEME_BG, more);
  }

  lemma DrawStray(pen: Pen, code: nat, more: seq<nat>)
    requires IsColourCode(code) && !Completes(more)
    ensures Draw(pen, [code] + more) == Draw(pen, more)
  {
    assert ([code] + more)[1..] == more;
  }

  /** The themed form of one command does to the themed pen what the command does to the plain one. */
  lemma HeadMeansTheSame(p: Palette, pen: Pen, params: seq<nat>, more: seq<nat>)
    requires params != [] && (IsStray(params) ==> !Completes(more))
    ensures var head, drawn := GruvboxHead(p, params), DrawHead(pen, params);
            Draw(ThemedPen(p, pen), head.0 + more) == Draw(ThemedPen(p, drawn.0), more)
  {
    var code := params[0];
    var themed := ThemedPen(p, pen);
    var head := GruvboxHead(p, params);
    HeadIsOneOf(p, pen, params);
    hide Draw, Completes, GruvboxHead, DrawHead, CommandLength, ThemedPen;
    if code == 0 {
      DrawReset(themed, more);
    } else if code == 7 || code == 27 {
      assert [] + more == more;
    } else if |head.0| == 5 {
      DrawRgb(themed, head.0[0], Rgb(head.0[2], head.0[3], head.0[4]), more);
    } else if IsColourCode(code) {
      DrawStray(themed, code, more);
    } else {
      DrawOne(themed, code, more);
    }
  }

  /** What the first command becomes, case by case, and what it does to the themed pen. */
  lemma HeadIsOneOf(p: Palette, pen: Pen, params: seq<nat>)
    requires params != []
    ensures var code, themed := params[0], ThemedPen(p, pen);
            var head, after := GruvboxHead(p, params).0, ThemedPen(p, DrawHead(pen, params).0);
            if code == 0 then
              head == [0] + RgbCodes(38, THEME_FG) + RgbCodes(48, THEME_BG)
              && after == Pen(True(THEME_FG), True(THEME_BG), false)
            else if code == 7 || code == 27 then head == [] && after == themed
            else if |head| == 5 then
              IsColourCode(head[0]) && head == RgbCodes(head[0], Rgb(head[2], head[3], head[4]))
              && after == WithLayer(themed, head[0], True(Rgb(head[2], head[3], head[4])))
            else
              head == [code] && after == themed && (IsColourCode(code) ==> IsStray(params))
              && (!IsColourCode(code) ==> DrawHead(themed, [code]).0 == themed)
  {
  }

  /**
   * The gruvbox rewriting preserves meaning: unless a stray colour command leaks,
   * drawing the themed form of a list with the themed pen gives the themed form
   * of what the original gives, so no default colour and no reverse video shows.
   */
  lemma {:induction false} GruvboxMeansTheSame(p: Palette, pen: Pen, params: seq<nat>)
    requires !Leaks(params)
    ensures Draw(ThemedPen(p, pen), GruvboxCodes(p, params)) == ThemedPen(p, Draw(pen, params))
    decreases |params|
  {
    if params == [] {
      return;
    }
    var rest := params[CommandLength(params)..];
    HeadIs(p, pen, params);
    ReadsOnIsCompletes(p, rest);
    hide GruvboxHead, DrawHead, ThemedPen, ReadsOn, Completes, CommandLength;
    HeadMeansTheSame(p, pen, params, GruvboxCodes(p, rest));
    GruvboxMeansTheSame(p, DrawHead(pen, params).0, rest);
  }

  lemma CyanCodes(p: Palette)
    ensures GruvboxCodes(p, [38, 2, 36]) == [38, 2, 38, 2, 104, 157, 106]
  {
    assert GruvboxCodes(p, [36]) == [38, 2, 104, 157, 106] by {
      assert GruvboxCodes(p, []) == [];
      assert [36][1..] == [];
    }
    assert [2, 36][1..] == [36];
    assert GruvboxCodes(p, [2, 36]) == [2] + GruvboxCodes(p, [36]);
    assert [38, 2, 36][1..] == [2, 36];
  }

  /**
   * A leak can show: ESC[38;2;36m, which sets the foreground to cyan, turns the
   * background cyan, because the 38 takes the themed cyan for its arguments.
   */
  lemma TruncatedColourLeaks(p: Palette, pen: Pen)
    ensures Leaks([38, 2, 36])
    ensures Draw(ThemedPen(p, pen), GruvboxCodes(p, [38, 2, 36])).bg == Basic(14)
    ensures Draw(ThemedPen(p, pen), GruvboxCodes(p, [38, 2, 36])) != ThemedPen(p, Draw(pen, [38, 2, 36]))
  {
    CyanLeaks();
    CyanCodes(p);
    hide GruvboxCodes, Leaks;
    var themed := ThemedPen(p, pen);
    var tail := [157, 106];
    assert [38, 2, 38, 2, 104, 157, 106] == RgbCodes(38, Rgb(38, 2, 104)) + tail;
    DrawRgb(themed, 38, Rgb(38, 2, 104), tail);
    assert tail[1..] == [106] && [106][1..] == [];
  }

  lemma CyanLeaks()
    ensures Leaks([38, 2, 36])
  {
    assert [38, 2, 36][1..] == [2, 36] && [2, 36][1..] == [36] && [36][1..] == [];
    assert EmittedLength([36]) == 5 + EmittedLength([]);
    assert EmittedLength([2, 36]) == 1 + EmittedLength([36]);
  }

  /**
   * Or a later command can hide it: followed by a reset, the same list ends with
   * the right colours, so the final pen alone does not tell whether it leaks.
   */
  lemma ResetHidesLeak(p: Palette, pen: Pen)
    ensures Leaks([38, 2, 36, 0])
    ensures Draw(ThemedPen(p, pen), GruvboxCodes(p, [38, 2, 36, 0])) == ThemedPen(p, Draw(pen, [38, 2, 36, 0]))
  {
    ResetCyanCodes(p);
    CyanResetLeaks();
    CyanResetDraws(pen);
    hide GruvboxCodes, Leaks, Draw;
    var themed, reset := ThemedPen(p, pen), [0] + RgbCodes(38, THEME_FG) + RgbCodes(48, THEME_BG);
    assert [38, 2, 38, 2, 104, 157, 106] + reset == RgbCodes(38, Rgb(38, 2, 104)) + ([157] + ([106] + (reset + [])));
    DrawRgb(themed, 38, Rgb(38, 2, 104), [157] + ([106] + (reset + [])));
    var read := themed.(fg := True(Rgb(38, 2, 104)));
    DrawOne(read, 157, [106] + (reset + []));
    DrawOne(read, 106, reset + []);
    DrawReset(read.(bg := Basic(14)), []);
    DrawNothing(Pen(True(THEME_FG), True(THEME_BG), false));
  }

  lemma CyanResetDraws(pen: Pen)
    ensures Draw(pen, [38, 2, 36, 0]) == Pen(Default, Default, false)
  {
    assert [38, 2, 36, 0][1..] == [2, 36, 0] && [2, 36, 0][1..] == [36, 0] && [36, 0][1..] == [0] && [0][1..] == [];
    assert Draw(pen.(fg := Basic(6)), [0]) == Pen(Default, Default, false);
    assert Draw(pen, [36, 0]) == Pen(Default, Default, false);
    assert Draw(pen, [2, 36, 0]) == Pen(Default, Default, false);
  }

  lemma ResetCyanCodes(p: Palette)
    ensures GruvboxCodes(p, [38, 2, 36, 0])
         == [38, 2, 38, 2, 104, 157, 106] + ([0] + RgbCodes(38, THEME_FG) + RgbCodes(48, THEME_BG))
  {
    var reset := [0] + RgbCodes(38, THEME_FG) + RgbCodes(48, THEME_BG);
    assert [38, 2, 36, 0][1..] == [2, 36, 0] && [2, 36, 0][1..] == [36, 0] && [36, 0][1..] == [0] && [0][1..] == [];
    assert GruvboxCodes(p, [0]) == reset + GruvboxCodes(p, []);
    assert GruvboxCodes(p, [36, 0]) == [38, 2, 104, 157, 106] + GruvboxCodes(p, [0]);
    assert GruvboxCodes(p, [2, 36, 0]) == [2] + GruvboxCodes(p, [36, 0]);
    assert GruvboxCodes(p, [38, 2, 36, 0]) == [38] + GruvboxCodes(p, [2, 36, 0]);
  }

  lemma CyanResetLeaks()
    ensures Leaks([38, 2, 36, 0])
  {
    assert [38, 2, 36, 0][1..] == [2, 36, 0] && [2, 36, 0][1..] == [36, 0] && [36, 0][1..] == [0] && [0][1..] == [];
    assert EmittedLength([36, 0]) == 5 + EmittedLength([0]);
    assert EmittedLength([2, 36, 0]) == 1 + EmittedLength([36, 0]);
  }

  // ---- what the remap without a theme takes for a command

  /** The rewriting of commands only: the arguments of a complete colour command are left alone. */
  function CommandsRemapped(params: seq<nat>): seq<nat>
    decreases |params|
  {
    if params == [] then []
    else
      var n := CommandLength(params);
      (if n == 1 then LcdCode(params[0]) else params[..n]) + CommandsRemapped(params[n..])
  }

  /** No argument of a complete colour command is 7 or 27. */
  predicate ArgumentsArePlain(params: seq<nat>)
    decreases |params|
  {
    params == [] ||
    (var n := CommandLength(params);
     7 !in params[1..n] && 27 !in params[1..n] && ArgumentsArePlain(params[n..]))
  }

  lemma {:induction false} LcdCodesAppend(a: seq<nat>, b: seq<nat>)
    ensures LcdCodes(a + b) == LcdCodes(a) + LcdCodes(b)
  {
    if b == [] {
      assert a + b == a;
      return;
    }
    hide LcdCodes, LcdCode;
    var init, last := b[..|b| - 1], b[|b| - 1];
    LcdCodesAppend(a, init);
    LcdCodesSnoc(a + init, last);
    LcdCodesSnoc(init, last);
    RegroupLast(a, b);
    RegroupCodes(LcdCodes(a), LcdCodes(init), LcdCode(last));
  }

  lemma RegroupLast(a: seq<nat>, b: seq<nat>)
    requires b != []
    ensures a + b[..|b| - 1] + [b[|b| - 1]] == a + b && b[..|b| - 1] + [b[|b| - 1]] == b
  {
  }

  lemma RegroupCodes(a: seq<nat>, b: seq<nat>, c: seq<nat>)
    ensures a + b + c == a + (b + c)
  {
  }

  lemma LcdCodesSnoc(params: seq<nat>, code: nat)
    ensures LcdCodes(params + [code]) == LcdCodes(params) + LcdCode(code)
  {
    assert (params + [code])[..|params|] == params;
  }

  /** The rewriting makes a list longer, and exactly when it changes it. */
  lemma {:induction false} LcdCodesLength(params: seq<nat>)
    ensures |params| <= |LcdCodes(params)|
    ensures 7 in params || 27 in params ==> |params| < |LcdCodes(params)|
  {
    if params != [] {
      var init := params[..|params| - 1];
      LcdCodesLength(init);
      assert params == init + [params[|params| - 1]];
    }
  }

  lemma ColourHead(params: seq<nat>)
    requires params != [] && CommandLength(params) > 1
    ensures var head := params[..CommandLength(params)];
            && (LcdCodes(head) == head <==> 7 !in head[1..] && 27 !in head[1..])
            && (LcdCodes(head) != head ==> |head| < |LcdCodes(head)|)
            && head[1..] == params[1..CommandLength(params)]
  {
    var head := params[..CommandLength(params)];
    LcdCodesLength(head);
    assert head == [head[0]] + head[1..];
    if 7 !in head && 27 !in head {
      LcdCodesFixpoint(head);
    }
  }

  lemma {:induction false} CommandsAreShorter(params: seq<nat>)
    ensures |CommandsRemapped(params)| <= |LcdCodes(params)|
    decreases |params|
  {
    if params != [] {
      var n := CommandLength(params);
      CommandsAreShorter(params[n..]);
      LcdHead(params);
      LcdCodesLength(params[..n]);
      hide LcdCodes;
    }
  }

  lemma NothingRemapped()
    ensures LcdCodes([]) == []
  {
  }

  lemma LcdHead(params: seq<nat>)
    requires params != []
    ensures var n := CommandLength(params);
            && LcdCodes(params) == LcdCodes(params[..n]) + LcdCodes(params[n..])
            && (n == 1 ==> LcdCodes(params[..n]) == LcdCode(params[0]))
  {
    hide LcdCodes, LcdCode, CommandLength;
    var n := CommandLength(params);
    LcdCodesAppend(params[..n], params[n..]);
    LcdCodesSnoc([], params[0]);
    assert params[..n] + params[n..] == params;
    assert [] + [params[0]] == params[..1];
    NothingRemapped();
    assert [] + LcdCode(params[0]) == LcdCode(params[0]);
  }

  /**
   * The remap without a theme rewrites commands only, and leaves the arguments of
   * colour commands alone, exactly when no such argument is 7 or 27.
   */
  lemma {:induction false} LcdRewritesCommandsIff(params: seq<nat>)
    ensures LcdCodes(params) == CommandsRemapped(params) <==> ArgumentsArePlain(params)
    decreases |params|
  {
    if params == [] {
      return;
    }
    var n := CommandLength(params);
    LcdRewritesCommandsIff(params[n..]);
    CommandsAreShorter(params[n..]);
    LcdHead(params);
    if n > 1 {
      ColourHead(params);
    }
    hide LcdCodes, CommandLength;
    if n == 1 {
      assert params[1..1] == [];
    }
    SameFront(LcdCodes(params[..n]), LcdCodes(params[n..]), if n == 1 then LcdCode(params[0]) else params[..n],
              CommandsRemapped(params[n..]));
  }

  lemma SameFront(a: seq<nat>, b: seq<nat>, c: seq<nat>, d: seq<nat>)
    ensures a == c ==> (a + b == c + d <==> b == d)
    ensures |c| < |a| && |d| <= |b| ==> a + b != c + d
  {
    if a == c && a + b == c + d {
      assert b == (a + b)[|a|..] == (c + d)[|c|..] == d;
    }
  }

  // ---- and what a terminal then reads

  /** What the remap makes of one command: a colour command stays, reverse video becomes two or two commands. */
  function LcdHeadCodes(params: seq<nat>): seq<nat>
    requires params != []
  {
    var n := CommandLength(params);
    if n == 1 then LcdCode(params[0]) else params[..n]
  }

  /** The commands the remap means to write. */
  function IntendedLcd(params: seq<nat>): seq<seq<nat>>
    decreases |params|
  {
    if params == [] then []
    else Commands(LcdHeadCodes(params)) + IntendedLcd(params[CommandLength(params)..])
  }

  /** A stray colour command takes what the remap puts after it for its mode and arguments. */
  predicate LcdLeaks(params: seq<nat>)
    decreases |params|
  {
    params != [] &&
    ((IsStray(params) && Completes(CommandsRemapped(params[1..]))) || LcdLeaks(params[CommandLength(params)..]))
  }

  /** Commands are cut out of the list, so together they are the list. */
  lemma {:induction false} CommandsMakeTheList(codes: seq<nat>)
    ensures Flatten(Commands(codes)) == codes
    decreases |codes|
  {
    if codes != [] {
      var n := CommandLength(codes);
      CommandsMakeTheList(codes[n..]);
      assert Commands(codes)[1..] == Commands(codes[n..]);
      hide CommandLength;
      assert codes[..n] + codes[n..] == codes;
    }
  }

  lemma {:induction false} IntendedMakeTheList(params: seq<nat>)
    ensures Flatten(IntendedLcd(params)) == CommandsRemapped(params)
    decreases |params|
  {
    if params != [] {
      var n := CommandLength(params);
      IntendedMakeTheList(params[n..]);
      CommandsMakeTheList(LcdHeadCodes(params));
      FlattenAppend(Commands(LcdHeadCodes(params)), IntendedLcd(params[n..]));
    }
  }

  /** One command of the output is read back as it was meant, unless a stray takes more. */
  lemma LcdHeadIsReadBack(params: seq<nat>, more: seq<nat>)
    requires params != [] && (IsStray(params) ==> !Completes(more))
    ensures Commands(LcdHeadCodes(params) + more) == Commands(LcdHeadCodes(params)) + Commands(more)
  {
    hide Commands, Completes, CommandLength, REVERSE_ON, REVERSE_OFF;
    var code := params[0];
    if CommandLength(params) > 1 {
      ColourIsReadBack(params, more);
    } else if code == 7 {
      ReverseIsReadBack(more);
    } else if code == 27 {
      ReverseEndIsReadBack(more);
    } else {
      CommandsOfOne(code, more);
    }
  }

  lemma ColourIsReadBack(params: seq<nat>, more: seq<nat>)
    requires params != [] && CommandLength(params) > 1
    ensures var head := params[..CommandLength(params)];
            Commands(head + more) == Commands(head) + Commands(more)
  {
    var head := params[..CommandLength(params)];
    assert CommandLength(head + more) == |head| && CommandLength(head + []) == |head|;
    hide CommandLength, Commands;
    CommandsCons(head, more);
    CommandsCons(head, []);
    NoCommands();
    assert head + [] == head;
  }

  lemma ReverseEndIsReadBack(more: seq<nat>)
    ensures Commands(REVERSE_OFF + more) == Commands(REVERSE_OFF) + Commands(more)
  {
    hide Commands, Completes;
    assert REVERSE_OFF + more == [39] + ([49] + more) && REVERSE_OFF == [39] + [49];
    CommandsOfOne(39, [49] + more);
    CommandsOfOne(49, more);
    CommandsOfOne(39, [49]);
  }

  lemma ReverseIsReadBack(more: seq<nat>)
    ensures Commands(REVERSE_ON + more) == Commands(REVERSE_ON) + Commands(more)
  {
    hide Commands;
    var fg, bg := Rgb(249, 245, 215), Rgb(80, 73, 69);
    assert REVERSE_ON + more == RgbCodes(38, fg) + (RgbCodes(48, bg) + more);
    assert REVERSE_ON == RgbCodes(38, fg) + RgbCodes(48, bg);
    CommandsOfRgb(38, fg, RgbCodes(48, bg) + more);
    CommandsOfRgb(48, bg, more);
    CommandsOfRgb(38, fg, RgbCodes(48, bg));
  }

  lemma LcdStrayIsNotReadBack(params: seq<nat>, more: seq<nat>, rest: seq<seq<nat>>)
    requires params != [] && IsStray(params) && Completes(more)
    ensures Commands(LcdHeadCodes(params) + more) != Commands(LcdHeadCodes(params)) + rest
  {
    var head := LcdHeadCodes(params);
    assert head == [params[0]];
    CommandsOfOne(params[0], []);
    assert CommandLength(head + more) > 1;
    assert |Commands(head + more)[0]| > 1;
    assert (Commands(head) + rest)[0] == head;
  }

  lemma {:induction false} RemappedReadAsIntendedIff(params: seq<nat>)
    ensures Commands(CommandsRemapped(params)) == IntendedLcd(params) <==> !LcdLeaks(params)
    decreases |params|
  {
    if params == [] {
      return;
    }
    hide Commands, Completes, CommandLength, LcdHeadCodes;
    var rest := params[CommandLength(params)..];
    RemappedReadAsIntendedIff(rest);
    RemappedNext(params);
    if IsStray(params) && Completes(CommandsRemapped(rest)) {
      LcdStrayIsNotReadBack(params, CommandsRemapped(rest), IntendedLcd(rest));
    } else {
      LcdHeadIsReadBack(params, CommandsRemapped(rest));
      SameTail(Commands(LcdHeadCodes(params)), Commands(CommandsRemapped(rest)), IntendedLcd(rest));
    }
  }

  lemma RemappedNext(params: seq<nat>)
    requires params != []
    ensures CommandsRemapped(params) == LcdHeadCodes(params) + CommandsRemapped(params[CommandLength(params)..])
  {
  }

  /**
   * The terminal reads exactly the commands the remap means to write when no
   * argument of a colour command is taken for reverse video, and no stray colour
   * command takes what follows it for its arguments; and only then.
   */
  lemma LcdReadAsIntendedIff(params: seq<nat>)
    ensures Commands(LcdCodes(params)) == IntendedLcd(params) <==> ArgumentsArePlain(params) && !LcdLeaks(params)
  {
    LcdRewritesCommandsIff(params);
    RemappedReadAsIntendedIff(params);
    CommandsMakeTheList(LcdCodes(params));
    IntendedMakeTheList(params);
  }

  /**
   * ESC[38;5;7m, which sets the foreground to white, fails the condition: it
   * comes out as colour 38 on the grey background of reverse video.
   */
  lemma IndexedWhiteIsMangled(pen: Pen)
    ensures !ArgumentsArePlain([38, 5, 7])
    ensures LcdCodes([38, 5, 7]) == [38, 5] + REVERSE_ON
    ensures Draw(pen, [38, 5, 7]) == pen.(fg := Indexed(7))
    ensures Draw(pen, LcdCodes([38, 5, 7])) == pen.(fg := Indexed(38), bg := True(Rgb(80, 73, 69)))
  {
    hide LcdCodes, Draw, ArgumentsArePlain;
    SevenIsNotPlain();
    MangledCodes();
    DrawIndexed(pen, 38, 7, []);
    DrawNothing(pen.(fg := Indexed(7)));
    assert [38, 5, 7] + [] == [38, 5, 7];
    DrawColour38(pen);
  }

  lemma SevenIsNotPlain()
    ensures !ArgumentsArePlain([38, 5, 7])
  {
    assert [38, 5, 7][1..3] == [5, 7];
  }

  lemma DrawColour38(pen: Pen)
    ensures Draw(pen, [38, 5] + REVERSE_ON) == pen.(fg := Indexed(38), bg := True(Rgb(80, 73, 69)))
  {
    hide Draw;
    var tail := [2, 249, 245, 215] + RgbCodes(48, Rgb(80, 73, 69));
    assert [38, 5] + REVERSE_ON == [38, 5, 38] + tail;
    DrawIndexed(pen, 38, 38, tail);
    DrawMangled(pen.(fg := Indexed(38)));
  }

  lemma MangledCodes()
    ensures LcdCodes([38, 5, 7]) == [38, 5] + REVERSE_ON
  {
    assert [38, 5, 7] == [38] + [5] + [7];
    LcdCodesSnoc([], 38);
    LcdCodesSnoc([38], 5);
    LcdCodesSnoc([38] + [5], 7);
    assert [] + [38] == [38];
  }

  lemma DrawIndexed(pen: Pen, kind: nat, n: nat, more: seq<nat>)
    requires IsColourCode(kind)
    ensures Draw(pen, [kind, 5, n] + more) == Draw(WithLayer(pen, kind, Indexed(n)), more)
  {
    assert ([kind, 5, n] + more)[3..] == more;
  }

  lemma DrawNothing(pen: Pen)
    ensures Draw(pen, []) == pen
  {
  }

  lemma DrawMangled(pen: Pen)
    ensures Draw(pen, [2, 249, 245, 215] + RgbCodes(48, Rgb(80, 73, 69))) == pen.(bg := True(Rgb(80, 73, 69)))
  {
    hide Draw;
    var rgb := RgbCodes(48, Rgb(80, 73, 69));
    assert [2, 249, 245, 215] + rgb == [2] + ([249] + ([245] + ([215] + rgb)));
    DrawOne(pen, 2, [249] + ([245] + ([215] + rgb)));
    DrawOne(pen, 249, [245] + ([215] + rgb));
    DrawOne(pen, 245, [215] + rgb);
    DrawOne(pen, 215, rgb);
    DrawBackground(pen);
  }

  /**
   * ESC[38;2;7m, cut short, fails it the other way: no argument is 7, but the 38
   * takes what the reverse video became for its arguments, and the foreground of
   * reverse video is lost.
   */
  lemma TruncatedReverseLeaks(pen: Pen)
    ensures ArgumentsArePlain([38, 2, 7]) && LcdLeaks([38, 2, 7])
    ensures LcdCodes([38, 2, 7]) == CommandsRemapped([38, 2, 7]) == [38, 2] + REVERSE_ON
    ensures Draw(pen, LcdCodes([7])).fg == True(Rgb(249, 245, 215))
    ensures Draw(pen, LcdCodes([38, 2, 7])).fg == True(Rgb(38, 2, 249))
  {
    CutReverse();
    hide LcdCodes, Draw, ArgumentsArePlain, LcdLeaks, CommandsRemapped;
    var bg := RgbCodes(48, Rgb(80, 73, 69));
    var tail := [245] + ([215] + bg);
    assert [38, 2] + REVERSE_ON == RgbCodes(38, Rgb(38, 2, 249)) + tail;
    DrawRgb(pen, 38, Rgb(38, 2, 249), tail);
    var read := pen.(fg := True(Rgb(38, 2, 249)));
    DrawOne(read, 245, [215] + bg);
    DrawOne(read, 215, bg);
    DrawBackground(read);
    assert REVERSE_ON == RgbCodes(38, Rgb(249, 245, 215)) + bg;
    DrawRgb(pen, 38, Rgb(249, 245, 215), bg);
    DrawBackground(pen.(fg := True(Rgb(249, 245, 215))));
  }

  lemma DrawBackground(pen: Pen)
    ensures Draw(pen, RgbCodes(48, Rgb(80, 73, 69))) == pen.(bg := True(Rgb(80, 73, 69)))
  {
    hide Draw;
    var bg := RgbCodes(48, Rgb(80, 73, 69));
    DrawRgb(pen, 48, Rgb(80, 73, 69), []);
    assert bg + [] == bg;
    DrawNothing(pen.(bg := True(Rgb(80, 73, 69))));
  }

  lemma CodesOfReverse()
    ensures LcdCodes([7]) == REVERSE_ON && LcdCodes([27]) == REVERSE_OFF
  {
    assert [7][..0] == [] && [27][..0] == [];
  }

  lemma DrawReverseOff(pen: Pen)
    ensures Draw(pen, [39, 49]) == pen.(fg := Default, bg := Default)
  {
    hide Draw;
    assert [39, 49] == [39] + [49] && [49] == [49] + [];
    DrawOne(pen, 39, [49]);
    DrawOne(pen.(fg := Default), 49, []);
    DrawNothing(pen.(fg := Default, bg := Default));
  }

  /** Reverse video becomes a pale foreground on grey, and switching it off the terminal's own colours. */
  lemma ReverseBecomesColours(pen: Pen)
    ensures Draw(pen, LcdCodes([7])) == pen.(fg := True(Rgb(249, 245, 215)), bg := True(Rgb(80, 73, 69)))
    ensures Draw(pen, LcdCodes([27])) == pen.(fg := Default, bg := Default)
  {
    hide LcdCodes, Draw;
    CodesOfReverse();
    var bg := RgbCodes(48, Rgb(80, 73, 69));
    assert REVERSE_ON == RgbCodes(38, Rgb(249, 245, 215)) + bg;
    DrawRgb(pen, 38, Rgb(249, 245, 215), bg);
    DrawBackground(pen.(fg := True(Rgb(249, 245, 215))));
    DrawReverseOff(pen);
  }

  /** The theme: a reset leaves its two colours, and every coloured background becomes its soft one. */
  lemma ThemeColours(p: Palette, pen: Pen, code: nat)
    requires 40 <= code <= 47 || 100 <= code <= 107
    ensures Draw(pen, GruvboxCodes(p, [0])) == Pen(True(Rgb(235, 219, 178)), True(Rgb(40, 40, 40)), false)
    ensures Draw(pen, GruvboxCodes(p, [code])) == pen.(bg := True(Rgb(60, 56, 54)))
  {
    assert [0][1..] == [] && [code][1..] == [];
    var reset := [0] + RgbCodes(38, THEME_FG) + RgbCodes(48, THEME_BG);
    assert GruvboxCodes(p, [0]) == reset + [] && reset + [] == reset;
    var soft := RgbCodes(48, THEME_SOFT_BG);
    assert GruvboxCodes(p, [code]) == soft + [] && soft + [] == soft;
    hide GruvboxCodes, Draw;
    DrawReset(pen, []);
    DrawNothing(Pen(True(THEME_FG), True(THEME_BG), false));
    DrawRgb(pen, 48, THEME_SOFT_BG, []);
    DrawNothing(pen.(bg := True(THEME_SOFT_BG)));
  }

  function Hex(n: nat): Rgb {
    Rgb(n / 0x1_0000, n / 0x100 % 0x100, n % 0x100)
  }

  /** The sixteen basic colours become those of the theme, dark ones and bright ones. */
  lemma BasicColours(p: Palette, pen: Pen, i: nat)
    requires i < 8
    ensures var dark := [0x282828, 0xCC241D, 0x98971A, 0xD79921, 0x458588, 0xB16286, 0x689D6A, 0xA89984];
            var bright := [0x928374, 0xFB4934, 0xB8BB26, 0xFABD2F, 0x83A598, 0xD3869B, 0x8EC07C, 0xEBDBB2];
            && Draw(pen, GruvboxCodes(p, [30 + i])) == pen.(fg := True(Hex(dark[i])))
            && Draw(pen, GruvboxCodes(p, [90 + i])) == pen.(fg := True(Hex(bright[i])))
  {
    hide GruvboxCodes, GruvboxHead, Draw, Hex, RgbCodes;
    BasicHeads(p, i);
    BasicIsDrawn(p, pen, 30 + i, BASIC[i]);
    BasicIsDrawn(p, pen, 90 + i, BASIC[i + 8]);
    DarkAndBright(i);
  }

  lemma BasicHeads(p: Palette, i: nat)
    requires i < 8
    ensures GruvboxHead(p, [30 + i]) == (RgbCodes(38, BASIC[i]), 1)
    ensures GruvboxHead(p, [90 + i]) == (RgbCodes(38, BASIC[i + 8]), 1)
  {
  }

  lemma DarkAndBright(i: nat)
    requires i < 8
    ensures BASIC[i] == Hex([0x282828, 0xCC241D, 0x98971A, 0xD79921, 0x458588, 0xB16286, 0x689D6A, 0xA89984][i])
    ensures BASIC[i + 8] == Hex([0x928374, 0xFB4934, 0xB8BB26, 0xFABD2F, 0x83A598, 0xD3869B, 0x8EC07C, 0xEBDBB2][i])
  {
  }

  lemma BasicIsDrawn(p: Palette, pen: Pen, code: nat, c: Rgb)
    requires GruvboxHead(p, [code]) == (RgbCodes(38, c), 1)
    ensures Draw(pen, GruvboxCodes(p, [code])) == pen.(fg := True(c))
  {
    assert [code][1..] == [];
    assert GruvboxCodes(p, [code]) == RgbCodes(38, c) + [] && RgbCodes(38, c) + [] == RgbCodes(38, c);
    hide GruvboxCodes, GruvboxHead, Draw;
    DrawRgb(pen, 38, c, []);
    DrawNothing(pen.(fg := True(c)));
  }

  lemma CutReverse()
    ensures ArgumentsArePlain([38, 2, 7]) && LcdLeaks([38, 2, 7])
    ensures LcdCodes([38, 2, 7]) == CommandsRemapped([38, 2, 7]) == [38, 2] + REVERSE_ON
    ensures LcdCodes([7]) == REVERSE_ON
  {
    assert [38, 2, 7][1..] == [2, 7] && [2, 7][1..] == [7] && [7][1..] == [];
    assert [38, 2, 7][1..1] == [] && [2, 7][1..1] == [] && [7][1..1] == [];
    assert ArgumentsArePlain([7]) && ArgumentsArePlain([2, 7]);
    assert CommandsRemapped([7]) == REVERSE_ON + [] == REVERSE_ON;
    assert CommandsRemapped([2, 7]) == [2] + REVERSE_ON;
    assert [38] + ([2] + REVERSE_ON) == [38, 2] + REVERSE_ON;
    LcdRewritesCommandsIff([38, 2, 7]);
    LcdRewritesCommandsIff([7]);
  }
}

/**
 * The themed remap on a whole text. Sequences that only switch reverse video
 * vanish, so what stands on either side of them may make a sequence that was not
 * there before.
 */
module ThemedText {
  import opened SgrRewriter
  import opened SgrRemap

  function GruvboxRemap(p: Palette, s: string): string {
    Substitute(raw => RemapForGruvbox(p, raw), s)
  }

  /** The parameter lists of what one sequence becomes: none, one, or three for ESC[m. */
  function Emitted(p: Palette, raw: string): (lists: seq<seq<nat>>)
    requires ParamsOnly(raw)
    ensures forall i :: 0 <= i < |lists| ==> lists[i] != []
  {
    if raw == "" then [[0], RgbCodes(38, THEME_FG), RgbCodes(48, THEME_BG)]
    else
      var out := GruvboxCodes(p, Codes(raw));
      if out == [] then [] else [out]
  }

  /** The parameter lists of what the sequences of a text become, in order. */
  function ThemedLists(p: Palette, s: string): seq<seq<nat>>
    decreases |s|
  {
    if s == "" then []
    else
      var n := MatchLength(s);
      if n > 0 then Emitted(p, s[2..n - 1]) + ThemedLists(p, s[n..]) else ThemedLists(p, s[1..])
  }

  /** Nothing but reverse video is switched. */
  predicate Vanishes(raw: string)
    requires ParamsOnly(raw)
  {
    raw != "" && forall i :: 0 <= i < |Codes(raw)| ==> Codes(raw)[i] == 7 || Codes(raw)[i] == 27
  }

  /** The visible text up to the next escape, sequences that vanish left out. */
  function Front(s: string): string
    decreases |s|
  {
    if s == "" then ""
    else
      var n := MatchLength(s);
      if n > 0 then if Vanishes(s[2..n - 1]) then Front(s[n..]) else ""
      else if s[0] == ESC then ""
      else [s[0]] + Front(s[1..])
  }

  /** With the sequences that vanish left out, an escape outside sequences begins one. */
  predicate Fuses(s: string)
    decreases |s|
  {
    s != "" &&
    if MatchLength(s) > 0 then Fuses(s[MatchLength(s)..])
    else (s[0] == ESC && MatchLength([ESC] + Front(s[1..])) > 0) || Fuses(s[1..])
  }

  // ---- one sequence

  function Written(lists: seq<seq<nat>>): string
    requires forall i :: 0 <= i < |lists| ==> lists[i] != []
  {
    if lists == [] then "" else Sgr(lists[0]) + Written(lists[1..])
  }

  lemma EmittedIsWritten(p: Palette, raw: string)
    requires ParamsOnly(raw)
    ensures RemapForGruvbox(p, raw) == Written(Emitted(p, raw))
  {
    hide Sgr, GruvboxCodes, Written, RgbCodes, Codes, THEME_FG, THEME_BG;
    WrittenNothing();
    if raw == "" {
      var fg, bg := RgbCodes(38, THEME_FG), RgbCodes(48, THEME_BG);
      WrittenCons([0], [fg, bg]);
      WrittenCons(fg, [bg]);
      WrittenCons(bg, []);
      assert Sgr([0]) + (Sgr(fg) + (Sgr(bg) + "")) == Sgr([0]) + Sgr(fg) + Sgr(bg);
      assert [[0]] + [fg, bg] == [[0], fg, bg] && [fg] + [bg] == [fg, bg] && [bg] + [] == [bg];
    } else if GruvboxCodes(p, Codes(raw)) != [] {
      var out := GruvboxCodes(p, Codes(raw));
      WrittenCons(out, []);
      assert [out] + [] == [out] && Sgr(out) + "" == Sgr(out);
    }
  }

  lemma WrittenCons(first: seq<nat>, lists: seq<seq<nat>>)
    requires first != [] && forall i :: 0 <= i < |lists| ==> lists[i] != []
    ensures forall i :: 0 <= i < |[first] + lists| ==> ([first] + lists)[i] != []
    ensures Written([first] + lists) == Sgr(first) + Written(lists)
  {
    hide Sgr;
    assert ([first] + lists)[1..] == lists;
  }

  lemma HeadNothingIff(p: Palette, params: seq<nat>)
    requires params != []
    ensures var head := GruvboxHead(p, params);
            if params[0] == 7 || params[0] == 27 then head == ([], 1) else head.0 != []
  {
  }

  lemma {:induction false} GruvboxNothingIff(p: Palette, params: seq<nat>)
    ensures GruvboxCodes(p, params) == [] <==> forall i :: 0 <= i < |params| ==> params[i] == 7 || params[i] == 27
    decreases |params|
  {
    if params != [] {
      GruvboxNothingIff(p, params[1..]);
      HeadNothingIff(p, params);
      hide GruvboxHead;
      assert params == [params[0]] + params[1..];
    }
  }

  lemma VanishesIff(p: Palette, raw: string)
    requires ParamsOnly(raw)
    ensures Vanishes(raw) <==> Emitted(p, raw) == []
  {
    if raw != "" {
      GruvboxNothingIff(p, Codes(raw));
    }
  }

  /** What was written is read back, whatever follows. */
  lemma {:induction false} WrittenIsReadBack(lists: seq<seq<nat>>, more: string)
    requires forall i :: 0 <= i < |lists| ==> lists[i] != []
    ensures SgrLists(Written(lists) + more) == lists + SgrLists(more)
    ensures StripSgr(Written(lists) + more) == StripSgr(more)
    ensures lists != [] ==> Written(lists) != "" && Written(lists)[0] == ESC
  {
    hide SgrLists, StripSgr, Codes, Written, Sgr, MatchLength;
    if lists == [] {
      WrittenNothing();
      assert "" + more == more && [] + SgrLists(more) == SgrLists(more);
    } else {
      var rest := Written(lists[1..]) + more;
      var u := Sgr(lists[0]) + rest;
      assert lists == [lists[0]] + lists[1..];
      WrittenCons(lists[0], lists[1..]);
      WrittenIsReadBack(lists[1..], more);
      MatchStaysMatch(lists[0], rest);
      ListsMatch(u);
      StripMatch(u);
      assert Written(lists) + more == u;
      Regroup(lists[0], lists[1..], SgrLists(more));
    }
  }

  lemma Regroup(first: seq<nat>, lists: seq<seq<nat>>, more: seq<seq<nat>>)
    ensures [first] + (lists + more) == [first] + lists + more
  {
  }

  lemma RemapOfMatch(p: Palette, s: string)
    requires MatchLength(s) > 0
    ensures var n := MatchLength(s);
            ParamsOnly(s[2..n - 1]) && GruvboxRemap(p, s) == Written(Emitted(p, s[2..n - 1])) + GruvboxRemap(p, s[n..])
  {
    var n := MatchLength(s);
    EmittedIsWritten(p, s[2..n - 1]);
    hide RemapForGruvbox, Written, Emitted, MatchLength;
  }

  lemma RemapOfOther(p: Palette, s: string)
    requires s != "" && MatchLength(s) == 0
    ensures GruvboxRemap(p, s) == [s[0]] + GruvboxRemap(p, s[1..])
  {
    hide RemapForGruvbox, MatchLength;
  }

  // ---- where a sequence may be made

  /** The output begins with that text, and then comes an escape or nothing. */
  lemma {:induction false} FrontIs(p: Palette, s: string)
    ensures var front, out := Front(s), GruvboxRemap(p, s);
            && front <= out && (|front| < |out| ==> out[|front|] == ESC)
            && forall i :: 0 <= i < |front| ==> front[i] != ESC
    decreases |s|
  {
    if s == "" {
      return;
    }
    var n := MatchLength(s);
    if n > 0 {
      RemapOfMatch(p, s);
      VanishesIff(p, s[2..n - 1]);
      FrontIs(p, s[n..]);
      WrittenIsReadBack(Emitted(p, s[2..n - 1]), "");
      hide GruvboxRemap, Written, Emitted, Vanishes, MatchLength;
      if Vanishes(s[2..n - 1]) {
        WrittenNothing();
        assert "" + GruvboxRemap(p, s[n..]) == GruvboxRemap(p, s[n..]);
      }
    } else {
      RemapOfOther(p, s);
      FrontIs(p, s[1..]);
      hide GruvboxRemap, MatchLength;
    }
  }

  lemma WrittenNothing()
    ensures Written([]) == ""
  {
  }

  /** Whether an escape begins a sequence is decided before the next escape. */
  lemma MatchInFront(front: string, out: string)
    requires front <= out && (|front| < |out| ==> out[|front|] == ESC)
    requires forall i :: 0 <= i < |front| ==> front[i] != ESC
    ensures MatchLength([ESC] + out) == MatchLength([ESC] + front) <= |front| + 1
  {
    var u, v := [ESC] + out, [ESC] + front;
    assert forall i :: 0 <= i < |v| ==> u[i] == v[i];
    var n := MatchLength(u);
    assert |front| < |out| ==> u[|v|] == ESC;
    if 0 < n <= |v| {
      assert IsMatch(v, n);
    } else if MatchLength(v) > 0 {
      assert IsMatch(u, MatchLength(v));
    }
  }

  lemma FrontOfVanished(p: Palette, s: string)
    requires MatchLength(s) > 0 && Front(s) != ""
    ensures var t := s[MatchLength(s)..];
            Front(s) == Front(t) && GruvboxRemap(p, s) == GruvboxRemap(p, t) && StripSgr(s) == StripSgr(t)
  {
    var n := MatchLength(s);
    RemapOfMatch(p, s);
    VanishesIff(p, s[2..n - 1]);
    StripMatch(s);
    WrittenNothing();
    hide GruvboxRemap, Written, Emitted, Vanishes, MatchLength, StripSgr;
    assert "" + GruvboxRemap(p, s[n..]) == GruvboxRemap(p, s[n..]);
  }

  lemma FrontOfOther(p: Palette, s: string)
    requires s != "" && MatchLength(s) == 0 && Front(s) != ""
    ensures Front(s) == [s[0]] + Front(s[1..]) && StripSgr(s) == [s[0]] + StripSgr(s[1..])
    ensures GruvboxRemap(p, s) == [s[0]] + GruvboxRemap(p, s[1..])
  {
    RemapOfOther(p, s);
    StripOther(s);
    hide GruvboxRemap, StripSgr, MatchLength;
  }

  lemma NothingInFront()
    ensures Front("") == ""
  {
  }

  /** Cutting off a piece of that text is remapping a shorter text with that much less to see. */
  lemma {:induction false} CutFront(p: Palette, s: string, j: nat) returns (t: string)
    requires j <= |Front(s)|
    ensures |t| <= |s| && j <= |GruvboxRemap(p, s)| && GruvboxRemap(p, t) == GruvboxRemap(p, s)[j..]
    ensures |StripSgr(t)| + j == |StripSgr(s)|
    decreases |s|
  {
    hide GruvboxRemap, MatchLength, StripSgr, Front;
    NothingInFront();
    if j == 0 {
      t := s;
    } else if MatchLength(s) > 0 {
      FrontOfVanished(p, s);
      t := CutFront(p, s[MatchLength(s)..], j);
    } else {
      FrontOfOther(p, s);
      t := CutFront(p, s[1..], j - 1);
      assert GruvboxRemap(p, s)[j..] == GruvboxRemap(p, s[1..])[j - 1..];
    }
  }

  /** What follows a sequence that was made is the remap of a text with less to see than `s`. */
  lemma AfterMade(p: Palette, s: string) returns (t: string)
    requires s != "" && MatchLength(s) == 0 && MatchLength(GruvboxRemap(p, s)) > 0
    ensures |t| < |s| && |StripSgr(t)| < |StripSgr(s)|
    ensures GruvboxRemap(p, t) == GruvboxRemap(p, s)[MatchLength(GruvboxRemap(p, s))..]
  {
    RemapOfOther(p, s);
    StripOther(s);
    FrontIs(p, s[1..]);
    assert s[0] == ESC;
    MatchInFront(Front(s[1..]), GruvboxRemap(p, s[1..]));
    hide GruvboxRemap, StripSgr, Front;
    var n := MatchLength(GruvboxRemap(p, s));
    hide MatchLength;
    t := CutFront(p, s[1..], n - 1);
    assert GruvboxRemap(p, s)[n..] == GruvboxRemap(p, s[1..])[n - 1..];
  }

  /** The remap never makes more to see. */
  lemma {:induction false} NeverMoreToSee(p: Palette, s: string)
    ensures |StripSgr(GruvboxRemap(p, s))| <= |StripSgr(s)|
    decreases |s|
  {
    if s == "" {
      return;
    }
    hide GruvboxRemap, StripSgr, MatchLength;
    var n, out := MatchLength(s), GruvboxRemap(p, s);
    if n > 0 {
      RemapOfMatch(p, s);
      WrittenIsReadBack(Emitted(p, s[2..n - 1]), GruvboxRemap(p, s[n..]));
      StripMatch(s);
      NeverMoreToSee(p, s[n..]);
    } else if MatchLength(out) > 0 {
      var t := AfterMade(p, s);
      StripMatch(out);
      NeverMoreToSee(p, t);
    } else {
      RemapOfOther(p, s);
      StripOther(s);
      StripOther(out);
      NeverMoreToSee(p, s[1..]);
      assert out[1..] == GruvboxRemap(p, s[1..]);
    }
  }

  // ---- the whole text

  /** Each sequence becomes what it should, no other is made, and the visible text stays. */
  ghost predicate ActsOnSequences(p: Palette, s: string) {
    SgrLists(GruvboxRemap(p, s)) == ThemedLists(p, s) && StripSgr(GruvboxRemap(p, s)) == StripSgr(s)
  }

  lemma MatchActs(p: Palette, s: string)
    requires MatchLength(s) > 0
    ensures ActsOnSequences(p, s) <==> ActsOnSequences(p, s[MatchLength(s)..])
  {
    hide GruvboxRemap, StripSgr, SgrLists, MatchLength, Emitted;
    var n := MatchLength(s);
    RemapOfMatch(p, s);
    var first, rest := Emitted(p, s[2..n - 1]), GruvboxRemap(p, s[n..]);
    WrittenIsReadBack(first, rest);
    StripMatch(s);
    hide Written;
    if first + SgrLists(rest) == first + ThemedLists(p, s[n..]) {
      assert SgrLists(rest) == (first + SgrLists(rest))[|first|..];
      assert ThemedLists(p, s[n..]) == (first + ThemedLists(p, s[n..]))[|first|..];
    }
  }

  lemma OtherActs(p: Palette, s: string)
    requires s != "" && MatchLength(s) == 0 && MatchLength(GruvboxRemap(p, s)) == 0
    ensures ActsOnSequences(p, s) <==> ActsOnSequences(p, s[1..])
  {
    hide GruvboxRemap, StripSgr, SgrLists, MatchLength;
    var out := GruvboxRemap(p, s);
    RemapOfOther(p, s);
    assert out[1..] == GruvboxRemap(p, s[1..]);
    ListsOther(out);
    StripOther(out);
    StripOther(s);
    var x, y := StripSgr(out[1..]), StripSgr(s[1..]);
    if [s[0]] + x == [s[0]] + y {
      assert x == ([s[0]] + x)[1..] && y == ([s[0]] + y)[1..];
    }
  }

  lemma MadeIsSeen(p: Palette, s: string)
    requires s != "" && MatchLength(s) == 0 && MatchLength(GruvboxRemap(p, s)) > 0
    ensures !ActsOnSequences(p, s)
  {
    hide GruvboxRemap, StripSgr, SgrLists, MatchLength;
    var t := AfterMade(p, s);
    StripMatch(GruvboxRemap(p, s));
    NeverMoreToSee(p, t);
  }

  /** An escape outside sequences begins one in the output just when it does in front of that text. */
  lemma MadeIff(p: Palette, s: string)
    requires s != "" && MatchLength(s) == 0
    ensures MatchLength(GruvboxRemap(p, s)) > 0 <==> s[0] == ESC && MatchLength([ESC] + Front(s[1..])) > 0
  {
    RemapOfOther(p, s);
    FrontIs(p, s[1..]);
    MatchInFront(Front(s[1..]), GruvboxRemap(p, s[1..]));
    hide GruvboxRemap, Front;
  }

  /**
   * For every text: the themed remap turns each sequence into its themed form,
   * makes no other and leaves the visible text alone exactly when no escape
   * outside sequences would begin one once those that vanish are left out.
   */
  lemma {:induction false} ThemedRemapActsOnSequencesIff(p: Palette, s: string)
    ensures ActsOnSequences(p, s) <==> !Fuses(s)
    decreases |s|
  {
    if s == "" {
      return;
    }
    hide ActsOnSequences, GruvboxRemap, MatchLength, Front;
    if MatchLength(s) > 0 {
      ThemedRemapActsOnSequencesIff(p, s[MatchLength(s)..]);
      MatchActs(p, s);
    } else {
      MadeIff(p, s);
      if MatchLength(GruvboxRemap(p, s)) > 0 {
        MadeIsSeen(p, s);
      } else {
        ThemedRemapActsOnSequencesIff(p, s[1..]);
        OtherActs(p, s);
      }
    }
  }

  // ---- an example

  const SPLIT_RED: string := [ESC] + ([ESC] + "[7m" + "[31m")

  lemma ReverseVanishes()
    ensures ParamsOnly("7") && Vanishes("7")
  {
    assert Decimal(7) == "7" && Join([7]) == "7";
    CodesOfJoin([7]);
    hide Codes;
  }

  lemma NoEscapeNoMatch(s: string)
    requires s != "" && s[0] != ESC
    ensures MatchLength(s) == 0 && Front(s) == [s[0]] + Front(s[1..])
  {
  }

  lemma RedIsFront()
    ensures Front([ESC] + "[7m" + "[31m") == "[31m"
  {
    var s := [ESC] + "[7m" + "[31m";
    assert IsMatch(s, 4) && s[2..3] == "7" && s[4..] == "[31m";
    ReverseVanishes();
    hide Vanishes, MatchLength;
    assert Front(s) == Front("[31m");
    assert "[31m"[1..] == "31m" && "31m"[1..] == "1m" && "1m"[1..] == "m" && "m"[1..] == "";
    NoEscapeNoMatch("[31m");
    NoEscapeNoMatch("31m");
    NoEscapeNoMatch("1m");
    NoEscapeNoMatch("m");
    assert Front("") == "";
  }

  /** Cut apart by ESC[7m, an ESC and `[31m` make a sequence that no theme was applied to. */
  lemma VanishedSequenceFuses(p: Palette)
    ensures Fuses(SPLIT_RED) && !ActsOnSequences(p, SPLIT_RED)
  {
    var rest := [ESC] + "[7m" + "[31m";
    assert SPLIT_RED[1..] == rest && SPLIT_RED[0] == ESC && SPLIT_RED[1] == ESC;
    assert MatchLength(SPLIT_RED) == 0;
    RedIsFront();
    var made := [ESC] + "[31m";
    assert made[0] == ESC && made[1] == '[' && made[2] == '3' && made[3] == '1' && made[4] == 'm';
    assert IsMatch(made, 5);
    ThemedRemapActsOnSequencesIff(p, SPLIT_RED);
    hide ActsOnSequences, Front;
  }
}

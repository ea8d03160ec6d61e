/**
 * Rewriting of SGR escape sequences (section 8.3.117 of ECMA-48), whole-string
 * and chunk by chunk. An incomplete sequence at the end of a chunk is held back
 * until the next one.
 */
module SgrRewriter {
  import opened Wrappers
  import opened Sequences

  const ESC: char := '\U{1B}'

  // ---- the grammar of one sequence: ESC [ parameters m

  predicate IsDigit(c: char) {
    '0' <= c <= '9'
  }

  predicate IsParam(c: char) {
    IsDigit(c) || c == ';' || c == ':'
  }

  predicate ParamsIn(s: string, low: nat, high: nat)
    requires low <= high <= |s|
  {
    forall i :: low <= i < high ==> IsParam(s[i])
  }

  /** Where the parameters starting at `from` end. */
  function ParamsEnd(s: string, from: nat): (n: nat)
    requires from <= |s|
    ensures from <= n <= |s| && ParamsIn(s, from, n)
    ensures n < |s| ==> !IsParam(s[n])
    decreases |s| - from
  {
    if from == |s| || !IsParam(s[from]) then from else ParamsEnd(s, from + 1)
  }

  /** The first `n` characters of `s` are one complete sequence. */
  predicate IsMatch(s: string, n: nat) {
    3 <= n <= |s| && s[0] == ESC && s[1] == '[' && ParamsIn(s, 2, n - 1) && s[n - 1] == 'm'
  }

  /** Length of the sequence `s` starts with; 0 if it starts with none. */
  function MatchLength(s: string): (n: nat)
    ensures n <= |s|
    ensures n > 0 ==> IsMatch(s, n)
    ensures forall k: nat :: IsMatch(s, k) ==> k == n
  {
    if |s| >= 3 && s[0] == ESC && s[1] == '[' then
      var n := ParamsEnd(s, 2);
      if n < |s| && s[n] == 'm' then n + 1 else 0
    else 0
  }

  /** `SGR_RE.sub(rewrite, s)`: every sequence replaced by what `rewrite` makes of its parameters. */
  function Substitute(rewrite: string -> string, s: string): string
    decreases |s|
  {
    if s == "" then ""
    else
      var n := MatchLength(s);
      if n > 0 then rewrite(s[2..n - 1]) + Substitute(rewrite, s[n..])
      else [s[0]] + Substitute(rewrite, s[1..])
  }

  // ---- incomplete sequences

  /** The start of a sequence, or what the adapter takes for one: ESC, an optional bracket, parameters. */
  predicate IsIncomplete(t: string) {
    && t != "" && t[0] == ESC
    && (|t| == 1 || ((t[1] == '[' || IsParam(t[1])) && ParamsIn(t, 2, |t|)))
  }

  function LastEscape(s: string): (i: Option<nat>)
    ensures i.None? ==> forall j :: 0 <= j < |s| ==> s[j] != ESC
    ensures i.Some? ==> i.value < |s| && s[i.value] == ESC && forall j :: i.value < j < |s| ==> s[j] != ESC
  {
    if s == "" then None
    else
      var last := |s| - 1;
      if s[last] == ESC then Some(last) else LastEscape(s[..last])
  }

  datatype Split = Split(body: string, tail: string)

  function SplitTail(s: string): (r: Split)
    ensures r.body + r.tail == s
    ensures r.tail != "" ==> r.tail[0] == ESC
  {
    var esc := LastEscape(s);
    if esc.None? then Split(s, "")
    else
      var tail := s[esc.value..];
      if MatchLength(tail) == |tail| then Split(s, "")
      else if IsIncomplete(tail) then Split(s[..esc.value], tail)
      else Split(s, "")
  }

  /** A complete sequence is not an incomplete one, so only the latter test decides. */
  lemma CompleteIsNotIncomplete(t: string)
    requires IsMatch(t, |t|)
    ensures !IsIncomplete(t)
  {
    assert !IsParam(t[|t| - 1]);
  }

  /** `s` splits at `esc` exactly when its last escape is there and starts an incomplete sequence. */
  lemma SplitAt(s: string)
    ensures var esc := LastEscape(s);
            SplitTail(s) == if esc.Some? && IsIncomplete(s[esc.value..])
                            then Split(s[..esc.value], s[esc.value..]) else Split(s, "")
  {
    var esc := LastEscape(s);
    if esc.Some? && MatchLength(s[esc.value..]) == |s[esc.value..]| {
      CompleteIsNotIncomplete(s[esc.value..]);
    }
  }

  lemma LastEscapeIs(s: string, i: nat)
    requires i < |s| && s[i] == ESC && forall j :: i < j < |s| ==> s[j] != ESC
    ensures LastEscape(s) == Some(i)
  {
  }

  /** Nothing is held back at the end of `s`. */
  predicate IsClosed(s: string) {
    SplitTail(s).tail == ""
  }

  lemma ClosedSuffix(s: string, k: nat)
    requires IsClosed(s) && k <= |s|
    ensures IsClosed(s[k..])
  {
    SplitAt(s);
    SplitAt(s[k..]);
    var i := LastEscape(s[k..]);
    hide SplitTail, LastEscape, IsIncomplete;
    if i.Some? {
      assert forall j :: k + i.value < j < |s| ==> s[j] == s[k..][j - k];
      LastEscapeIs(s, k + i.value);
      assert s[k..][i.value..] == s[k + i.value..];
    }
  }

  lemma IncompletePrefix(t: string, more: string)
    requires t != "" && IsIncomplete(t + more)
    ensures IsIncomplete(t)
  {
    var u := t + more;
    assert forall i :: 0 <= i < |t| ==> u[i] == t[i];
  }

  // ---- cutting a text between sequences

  /** A match cannot run across a cut that is closed on the left or starts a new escape. */
  lemma MatchStaysLeft(a: string, b: string)
    requires a != "" && (IsClosed(a) || b == "" || b[0] == ESC)
    ensures MatchLength(a + b) == MatchLength(a)
  {
    var s := a + b;
    var n := MatchLength(s);
    assert forall i :: 0 <= i < |a| ==> s[i] == a[i];
    if n > |a| {
      NoMatchAcross(a, b, n);
    } else if n > 0 {
      assert IsMatch(a, n);
    } else if MatchLength(a) > 0 {
      assert IsMatch(s, MatchLength(a));
    }
  }

  lemma NoMatchAcross(a: string, b: string, n: nat)
    requires a != "" && |a| < n && IsMatch(a + b, n)
    ensures !IsClosed(a) && b != "" && b[0] != ESC
  {
    var s := a + b;
    assert forall i :: 0 <= i < |a| ==> s[i] == a[i];
    assert b[0] == s[|a|];
    assert forall i :: 0 < i < |a| ==> a[i] != ESC;
    LastEscapeIs(a, 0);
    assert a[0..] == a;
    assert IsIncomplete(a);
    SplitAt(a);
  }

  function Head(rewrite: string -> string, s: string): string
    requires s != ""
  {
    var n := MatchLength(s);
    if n > 0 then rewrite(s[2..n - 1]) else [s[0]]
  }

  function Rest(s: string): (r: string)
    requires s != ""
    ensures |r| < |s|
  {
    var n := MatchLength(s);
    if n > 0 then s[n..] else s[1..]
  }

  lemma SubstituteHead(rewrite: string -> string, s: string)
    requires s != ""
    ensures Substitute(rewrite, s) == Head(rewrite, s) + Substitute(rewrite, Rest(s))
  {
  }

  lemma HeadOfCut(rewrite: string -> string, a: string, b: string)
    requires a != "" && MatchLength(a + b) == MatchLength(a)
    ensures Head(rewrite, a + b) == Head(rewrite, a) && Rest(a + b) == Rest(a) + b
  {
    var n := MatchLength(a);
    if n > 0 {
      assert (a + b)[2..n - 1] == a[2..n - 1];
    }
  }

  lemma ClosedRest(a: string)
    requires a != "" && IsClosed(a)
    ensures IsClosed(Rest(a))
  {
    var n := MatchLength(a);
    hide IsClosed, MatchLength, IsMatch;
    ClosedSuffix(a, if n > 0 then n else 1);
  }

  lemma CutFromRest(rewrite: string -> string, a: string, b: string)
    requires a != "" && MatchLength(a + b) == MatchLength(a)
    requires Substitute(rewrite, Rest(a) + b) == Substitute(rewrite, Rest(a)) + Substitute(rewrite, b)
    ensures Substitute(rewrite, a + b) == Substitute(rewrite, a) + Substitute(rewrite, b)
  {
    HeadOfCut(rewrite, a, b);
    SubstituteHead(rewrite, a);
    SubstituteHead(rewrite, a + b);
    hide Substitute, Head, Rest, IsMatch, MatchLength;
    Associative(Head(rewrite, a), Substitute(rewrite, Rest(a)), Substitute(rewrite, b));
  }

  lemma {:induction false} SubstituteCut(rewrite: string -> string, a: string, b: string)
    requires IsClosed(a) || b == "" || b[0] == ESC
    ensures Substitute(rewrite, a + b) == Substitute(rewrite, a) + Substitute(rewrite, b)
    decreases |a|
  {
    hide IsClosed, Head, Rest, IsMatch, MatchLength;
    if a == "" {
      assert a + b == b;
    } else {
      if IsClosed(a) {
        ClosedRest(a);
      }
      SubstituteCut(rewrite, Rest(a), b);
      MatchStaysLeft(a, b);
      CutFromRest(rewrite, a, b);
    }
  }

  lemma Associative(a: string, b: string, c: string)
    ensures a + (b + c) == a + b + c
  {
  }

  // ---- chunk by chunk

  /** Splitting a text whose front was already split continues where it left off. */
  lemma SplitContinues(whole: string, chunk: string)
    ensures var before, pending := SplitTail(whole), SplitTail(whole).tail + chunk;
            SplitTail(whole + chunk) == Split(before.body + SplitTail(pending).body, SplitTail(pending).tail)
  {
    var before := SplitTail(whole);
    var pending := before.tail + chunk;
    Associative(before.body, before.tail, chunk);
    if LastEscape(pending).Some? {
      SplitAfterEscape(before.body, pending);
    } else {
      NoEscapeNoTail(before, chunk);
      hide LastEscape, SplitTail;
      assert pending == chunk;
      ClosedGrows(whole, chunk);
      ClosedGrows("", chunk);
      assert "" + chunk == chunk;
    }
  }

  lemma EscapeIsSeen(tail: string, chunk: string)
    requires tail != "" && tail[0] == ESC
    ensures LastEscape(tail + chunk).Some?
  {
    assert (tail + chunk)[0] == ESC;
  }

  lemma NoEscapeNoTail(before: Split, chunk: string)
    requires before.tail != "" ==> before.tail[0] == ESC
    requires LastEscape(before.tail + chunk).None?
    ensures before.tail == "" && forall j :: 0 <= j < |chunk| ==> chunk[j] != ESC
  {
    if before.tail != "" {
      EscapeIsSeen(before.tail, chunk);
    } else {
      assert "" + chunk == chunk;
    }
  }

  lemma {:induction false} LastEscapeShifts(body: string, pending: string)
    requires LastEscape(pending).Some?
    ensures LastEscape(body + pending) == Some(|body| + LastEscape(pending).value)
  {
    var last := |pending| - 1;
    if pending[last] != ESC {
      LastEscapeShifts(body, pending[..last]);
      assert (body + pending)[..|body| + last] == body + pending[..last];
    }
  }

  lemma SliceShifts(body: string, pending: string, i: nat)
    requires i <= |pending|
    ensures (body + pending)[|body| + i..] == pending[i..]
    ensures (body + pending)[..|body| + i] == body + pending[..i]
  {
  }

  /** A text whose last escape lies in `pending` splits where `pending` splits. */
  lemma SplitAfterEscape(body: string, pending: string)
    requires LastEscape(pending).Some?
    ensures SplitTail(body + pending) == Split(body + SplitTail(pending).body, SplitTail(pending).tail)
  {
    SplitAt(pending);
    SplitAt(body + pending);
    LastEscapeShifts(body, pending);
    hide SplitTail, LastEscape, IsIncomplete;
    SliceShifts(body, pending, LastEscape(pending).value);
  }

  lemma ClosedGrows(whole: string, chunk: string)
    requires IsClosed(whole) && forall j :: 0 <= j < |chunk| ==> chunk[j] != ESC
    ensures SplitTail(whole + chunk) == Split(whole + chunk, "")
  {
    var all := whole + chunk;
    SplitAt(whole);
    SplitAt(all);
    var j := LastEscape(all);
    hide SplitTail, LastEscape, IsIncomplete;
    assert forall i :: |whole| <= i < |all| ==> all[i] == chunk[i - |whole|];
    if j.Some? {
      assert forall i :: 0 <= i < |whole| ==> all[i] == whole[i];
      LastEscapeIs(whole, j.value);
      assert all[j.value..] == whole[j.value..] + chunk;
      if IsIncomplete(all[j.value..]) {
        IncompletePrefix(whole[j.value..], chunk);
      }
    }
  }

  datatype Streamed = Streamed(out: string, tail: string)

  /** What feeding one chunk emits and holds back. */
  function FeedChunk(rewrite: string -> string, tail: string, chunk: string): Streamed {
    var split := SplitTail(tail + chunk);
    Streamed(Substitute(rewrite, split.body), split.tail)
  }

  function FeedAll(rewrite: string -> string, chunks: seq<string>): Streamed {
    if chunks == [] then Streamed("", "")
    else
      var before := FeedAll(rewrite, chunks[..|chunks| - 1]);
      var last := FeedChunk(rewrite, before.tail, chunks[|chunks| - 1]);
      Streamed(before.out + last.out, last.tail)
  }

  lemma BodyCanBeCut(whole: string, pending: string)
    requires SplitTail(whole).tail <= pending
    ensures var body := SplitTail(pending).body;
            IsClosed(SplitTail(whole).body) || body == "" || body[0] == ESC
  {
    var before := SplitTail(whole);
    if before.tail == "" {
      assert before.body == whole;
    } else {
      assert pending[0] == before.tail[0];
      assert SplitTail(pending).body + SplitTail(pending).tail == pending;
    }
  }

  /**
   * However a text is cut into chunks, the outputs concatenated are the one-shot
   * substitution on the whole text without the incomplete sequence at its end,
   * and exactly that sequence is held back.
   */
  lemma {:induction false} StreamingRefinesWhole(rewrite: string -> string, chunks: seq<string>)
    ensures var whole := SplitTail(Flatten(chunks));
            FeedAll(rewrite, chunks) == Streamed(Substitute(rewrite, whole.body), whole.tail)
  {
    if chunks == [] {
      return;
    }
    var init, last := chunks[..|chunks| - 1], chunks[|chunks| - 1];
    assert chunks == init + [last];
    FlattenSnoc(init, last);
    StreamingRefinesWhole(rewrite, init);
    hide Substitute, SplitTail, IsClosed;
    var whole := Flatten(init);
    var before := SplitTail(whole);
    SplitContinues(whole, last);
    BodyCanBeCut(whole, before.tail + last);
    SubstituteCut(rewrite, before.body, SplitTail(before.tail + last).body);
  }

  /** With the theme: the colour prefix is emitted once, before the first visible output. */
  datatype Themed = Themed(out: string, tail: string, started: bool)

  function FeedThemed(rewrite: string -> string, prefix: string, tail: string, started: bool, chunk: string): Themed {
    var split := SplitTail(tail + chunk);
    if split.body == "" then Themed("", split.tail, started)
    else Themed((if started then "" else prefix) + Substitute(rewrite, split.body), split.tail, true)
  }

  function ThemeAll(rewrite: string -> string, prefix: string, chunks: seq<string>): Themed {
    if chunks == [] then Themed("", "", false)
    else
      var before := ThemeAll(rewrite, prefix, chunks[..|chunks| - 1]);
      var last := FeedThemed(rewrite, prefix, before.tail, before.started, chunks[|chunks| - 1]);
      Themed(before.out + last.out, last.tail, last.started)
  }

  function ThemedOutput(rewrite: string -> string, prefix: string, body: string): string {
    if body == "" then "" else prefix + Substitute(rewrite, body)
  }

  lemma ThemedCut(rewrite: string -> string, prefix: string, a: string, b: string)
    requires Substitute(rewrite, a + b) == Substitute(rewrite, a) + Substitute(rewrite, b)
    ensures ThemedOutput(rewrite, prefix, a + b) == ThemedOutput(rewrite, prefix, a)
      + if b == "" then "" else (if a != "" then "" else prefix) + Substitute(rewrite, b)
  {
    SubstituteNothing(rewrite);
    hide Substitute;
    if b == "" {
      assert a + b == a;
    } else if a == "" {
      assert a + b == b;
    } else {
      assert prefix + (Substitute(rewrite, a) + Substitute(rewrite, b))
          == prefix + Substitute(rewrite, a) + ("" + Substitute(rewrite, b));
    }
  }

  /**
   * With a theme, the same holds and the colour prefix appears exactly once,
   * before everything else, as soon as there is anything else.
   */
  lemma {:induction false} ThemedStreamingRefinesWhole(rewrite: string -> string, prefix: string, chunks: seq<string>)
    ensures var whole := SplitTail(Flatten(chunks));
            ThemeAll(rewrite, prefix, chunks)
            == Themed(ThemedOutput(rewrite, prefix, whole.body), whole.tail, whole.body != "")
  {
    if chunks == [] {
      return;
    }
    var init, last := chunks[..|chunks| - 1], chunks[|chunks| - 1];
    assert chunks == init + [last];
    FlattenSnoc(init, last);
    ThemedStreamingRefinesWhole(rewrite, prefix, init);
    hide Substitute, SplitTail, IsClosed;
    var whole := Flatten(init);
    var before := SplitTail(whole);
    var body := SplitTail(before.tail + last).body;
    SplitContinues(whole, last);
    BodyCanBeCut(whole, before.tail + last);
    SubstituteCut(rewrite, before.body, body);
    ThemedCut(rewrite, prefix, before.body, body);
  }

  lemma SubstituteNothing(rewrite: string -> string)
    ensures Substitute(rewrite, "") == ""
  {
  }
}

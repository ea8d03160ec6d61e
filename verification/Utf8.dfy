/**
 * UTF-8 as section 3 of RFC 3629 defines it. A Rust `str` is a sequence of
 * Unicode scalar values, which is what a Dafny `string` is; its bytes are
 * `Encode` of it.
 */
module Utf8 {
  import opened Wrappers

  type byte = n: int | 0 <= n < 256

  /** Unicode white space, as Rust's `char::is_whitespace`. */
  predicate IsWhitespace(c: char) {
    || '\U{9}' <= c <= '\U{D}' || c == ' ' || c == '\U{85}' || c == '\U{A0}' || c == '\U{1680}'
    || '\U{2000}' <= c <= '\U{200A}' || c == '\U{2028}' || c == '\U{2029}' || c == '\U{202F}'
    || c == '\U{205F}' || c == '\U{3000}'
  }

  /** One character, six payload bits per continuation byte. */
  function EncodeChar(c: char): (b: seq<byte>)
    ensures 1 <= |b| <= 4
  {
    var n := c as int;
    if n < 0x80 then [n]
    else if n < 0x800 then [0xC0 + n / 0x40, 0x80 + n % 0x40]
    else if n < 0x1_0000 then
      var q := n / 0x40;
      [0xE0 + q / 0x40, 0x80 + q % 0x40, 0x80 + n % 0x40]
    else
      var q := n / 0x40;
      var h := q / 0x40;
      [0xF0 + h / 0x40, 0x80 + h % 0x40, 0x80 + q % 0x40, 0x80 + n % 0x40]
  }

  function Encode(s: string): seq<byte> {
    if s == "" then [] else EncodeChar(s[0]) + Encode(s[1..])
  }

  predicate IsContinuation(b: byte) {
    0x80 <= b < 0xC0
  }

  predicate IsScalar(n: int) {
    0 <= n < 0xD800 || 0xE000 <= n < 0x11_0000
  }

  /** Six more bits: the payload of a continuation byte below `high`. */
  function Extend(high: int, b: byte): int {
    high * 0x40 + (b - 0x80)
  }

  function AsChar(n: int, least: int, width: nat): (r: Option<(char, nat)>)
    ensures r.Some? ==> r.value.1 == width && r.value.0 as int == n >= least
    ensures r.Some? <==> n >= least >= 0 && IsScalar(n)
  {
    if n >= least >= 0 && IsScalar(n) then Some((n as char, width)) else None
  }

  /** The first character of `b` and the bytes it takes; shortest forms only. */
  function DecodeFirst(b: seq<byte>): (r: Option<(char, nat)>)
    ensures r.Some? ==> 1 <= r.value.1 <= |b|
  {
    if |b| == 0 then None
    else
      var lead: int := b[0];
      if lead < 0x80 then AsChar(lead, 0, 1)
      else if 0xC0 <= lead < 0xE0 && |b| >= 2 && IsContinuation(b[1]) then
        AsChar(Extend(lead - 0xC0, b[1]), 0x80, 2)
      else if 0xE0 <= lead < 0xF0 && |b| >= 3 && IsContinuation(b[1]) && IsContinuation(b[2]) then
        AsChar(Extend(Extend(lead - 0xE0, b[1]), b[2]), 0x800, 3)
      else if 0xF0 <= lead < 0xF8 && |b| >= 4
              && IsContinuation(b[1]) && IsContinuation(b[2]) && IsContinuation(b[3]) then
        AsChar(Extend(Extend(Extend(lead - 0xF0, b[1]), b[2]), b[3]), 0x1_0000, 4)
      else None
  }

  /** Rust's `str::from_utf8`: the text, or `None` on any malformed sequence. */
  function Decode(b: seq<byte>): Option<string> {
    if b == [] then Some("")
    else
      var first := DecodeFirst(b);
      if first.None? then None
      else
        var rest := Decode(b[first.value.1..]);
        if rest.None? then None else Some([first.value.0] + rest.value)
  }

  lemma DecodeFirstOfEncodeChar(c: char, rest: seq<byte>)
    ensures DecodeFirst(EncodeChar(c) + rest) == Some((c, |EncodeChar(c)|))
  {
    var n := c as int;
    var e := EncodeChar(c);
    var b := e + rest;
    assert forall i :: 0 <= i < |e| ==> b[i] == e[i];
    if 0x80 <= n < 0x800 {
      assert Extend(b[0] - 0xC0, b[1]) == n;
    } else if 0x800 <= n < 0x1_0000 {
      assert Extend(b[0] - 0xE0, b[1]) == n / 0x40;
      assert Extend(n / 0x40, b[2]) == n;
    } else if 0x1_0000 <= n {
      assert Extend(b[0] - 0xF0, b[1]) == n / 0x40 / 0x40;
      assert Extend(n / 0x40 / 0x40, b[2]) == n / 0x40;
      assert Extend(n / 0x40, b[3]) == n;
    }
  }

  lemma ExtendSplits(high: int, b: byte)
    requires IsContinuation(b)
    ensures Extend(high, b) / 0x40 == high && 0x80 + Extend(high, b) % 0x40 == b
  {
  }

  lemma EncodeCharOfDecodeFirst(b: seq<byte>)
    requires DecodeFirst(b).Some?
    ensures EncodeChar(DecodeFirst(b).value.0) == b[..DecodeFirst(b).value.1]
  {
    var lead: int := b[0];
    if lead < 0x80 {
    } else if lead < 0xE0 {
      ExtendSplits(lead - 0xC0, b[1]);
    } else if lead < 0xF0 {
      ExtendSplits(lead - 0xE0, b[1]);
      ExtendSplits(Extend(lead - 0xE0, b[1]), b[2]);
    } else {
      var h := Extend(lead - 0xF0, b[1]);
      ExtendSplits(lead - 0xF0, b[1]);
      ExtendSplits(h, b[2]);
      ExtendSplits(Extend(h, b[2]), b[3]);
    }
  }

  /** Decoding undoes encoding, for every text. */
  lemma {:induction false} DecodeEncode(s: string)
    ensures Decode(Encode(s)) == Some(s)
  {
    if s != "" {
      DecodeFirstOfEncodeChar(s[0], Encode(s[1..]));
      assert Encode(s)[|EncodeChar(s[0])|..] == Encode(s[1..]);
      DecodeEncode(s[1..]);
      assert [s[0]] + s[1..] == s;
    }
  }

  /** Whatever decodes is exactly the encoding of what it decodes to. */
  lemma {:induction false} EncodeDecode(b: seq<byte>)
    requires Decode(b).Some?
    ensures Encode(Decode(b).value) == b
  {
    if b == [] {
      return;
    }
    var rest := DecodeUnfolds(b);
    EncodeDecode(rest);
    hide Decode, EncodeChar;
    EncodeCons(DecodeFirst(b).value.0, Decode(rest).value);
  }

  lemma DecodeUnfolds(b: seq<byte>) returns (rest: seq<byte>)
    requires b != [] && Decode(b).Some?
    ensures DecodeFirst(b).Some? && |rest| < |b| && Decode(rest).Some?
    ensures Decode(b).value == [DecodeFirst(b).value.0] + Decode(rest).value
    ensures b == EncodeChar(DecodeFirst(b).value.0) + rest
  {
    EncodeCharOfDecodeFirst(b);
    hide DecodeFirst, EncodeChar;
    rest := b[DecodeFirst(b).value.1..];
  }

  lemma EncodeCons(c: char, s: string)
    ensures Encode([c] + s) == EncodeChar(c) + Encode(s)
  {
    assert ([c] + s)[1..] == s;
  }

  /** Rust's `str::is_char_boundary` on the bytes of a text. */
  predicate IsCharBoundary(b: seq<byte>, at: nat)
    requires at <= |b|
  {
    at == 0 || at == |b| || !IsContinuation(b[at])
  }

  lemma {:induction false} EncodeAppend(s: string, t: string)
    ensures Encode(s + t) == Encode(s) + Encode(t)
  {
    if s == "" {
      assert s + t == t;
    } else {
      assert (s + t)[1..] == s[1..] + t;
      EncodeAppend(s[1..], t);
    }
  }

  /** How many whole characters of `s` fit in `room` bytes. */
  function FittingChars(s: string, room: nat): (k: nat)
    ensures k <= |s|
  {
    if s == "" || |EncodeChar(s[0])| > room then 0
    else 1 + FittingChars(s[1..], room - |EncodeChar(s[0])|)
  }

  /** The fitting prefix is within the room, and one more character is not. */
  lemma {:induction false} FittingIsLongest(s: string, room: nat)
    ensures var k := FittingChars(s, room);
            && |Encode(s[..k])| <= room
            && (k < |s| ==> |Encode(s[..k + 1])| > room && room < |Encode(s[..k])| + 4)
  {
    if s != "" && |EncodeChar(s[0])| <= room {
      var rest := room - |EncodeChar(s[0])|;
      FittingIsLongest(s[1..], rest);
      var k := FittingChars(s, room);
      assert s[..k][1..] == s[1..][..k - 1];
      if k < |s| {
        assert s[..k + 1][1..] == s[1..][..k];
      }
    } else if s != "" {
      assert s[..1][1..] == "";
    }
  }

  /**
   * A cut of an encoded text is at a character boundary exactly when it is the
   * encoding of a prefix of the text, namely the longest one that fits.
   */
  lemma {:induction false} BoundaryIsWholePrefix(s: string, at: nat)
    requires at <= |Encode(s)|
    ensures IsCharBoundary(Encode(s), at) <==> Encode(s)[..at] == Encode(s[..FittingChars(s, at)])
    ensures IsCharBoundary(Encode(s), at) <==> |Encode(s[..FittingChars(s, at)])| == at
  {
    var b := Encode(s);
    if s == "" || at == 0 {
      assert b[..0] == [];
    } else {
      var c := EncodeChar(s[0]);
      if |c| <= at {
        var k := FittingChars(s, at);
        assert s[..k][1..] == s[1..][..k - 1];
        BoundaryIsWholePrefix(s[1..], at - |c|);
        assert b[..at] == c + Encode(s[1..])[..at - |c|];
        if at < |b| {
          assert b[at] == Encode(s[1..])[at - |c|];
          if at == |c| {
            LeadByteIsNotContinuation(s[1..]);
          }
        }
      } else {
        assert b[at] == c[at];
      }
    }
  }

  lemma LeadByteIsNotContinuation(s: string)
    requires s != ""
    ensures !IsContinuation(Encode(s)[0])
  {
  }

  /**
   * Cutting an encoded text at a byte leaves a well-formed text exactly when the
   * byte is a character boundary.
   */
  lemma {:induction false} CutDecodesAtBoundaries(s: string, at: nat)
    requires at <= |Encode(s)|
    ensures Decode(Encode(s)[..at]).Some? <==> IsCharBoundary(Encode(s), at)
    ensures IsCharBoundary(Encode(s), at) ==> Decode(Encode(s)[..at]) == Some(s[..FittingChars(s, at)])
  {
    BoundaryIsWholePrefix(s, at);
    if IsCharBoundary(Encode(s), at) {
      DecodeEncode(s[..FittingChars(s, at)]);
    } else {
      CutInsideIsMalformed(s, at);
    }
  }

  lemma {:induction false} CutInsideIsMalformed(s: string, at: nat)
    requires at <= |Encode(s)| && !IsCharBoundary(Encode(s), at)
    ensures Decode(Encode(s)[..at]).None?
  {
    var b := Encode(s);
    var c := EncodeChar(s[0]);
    if |c| <= at {
      assert b[..at] == c + Encode(s[1..])[..at - |c|];
      DecodeFirstOfEncodeChar(s[0], Encode(s[1..])[..at - |c|]);
      assert b[..at][|c|..] == Encode(s[1..])[..at - |c|];
      assert b[at] == Encode(s[1..])[at - |c|];
      if at == |c| {
        LeadByteIsNotContinuation(s[1..]);
      } else {
        CutInsideIsMalformed(s[1..], at - |c|);
      }
    } else {
      assert b[..at] == c[..at];
    }
  }
}

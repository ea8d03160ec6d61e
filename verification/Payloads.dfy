/**
 * Byte layouts of the single-report payloads: token usage, conversation turns,
 * permission requests and responses, and agent metadata.
 */
module Payloads {
  import opened Wrappers
  import opened Utf8
  import opened Codec

  function Pow256(n: nat): (p: nat)
    ensures p >= 1
  {
    if n == 0 then 1 else 256 * Pow256(n - 1)
  }

  const U64_RANGE: nat := Pow256(8)

  type U64 = n: int | 0 <= n < U64_RANGE

  function LittleEndian(n: nat, width: nat): (b: seq<byte>)
    ensures |b| == width
  {
    if width == 0 then [] else [n % 256] + LittleEndian(n / 256, width - 1)
  }

  function FromLittleEndian(b: seq<byte>): nat {
    if b == [] then 0
    else
      var low: int := b[0];
      low + 256 * FromLittleEndian(b[1..])
  }

  lemma {:induction false} FromLittleEndianOfLittleEndian(n: nat, width: nat)
    requires n < Pow256(width)
    ensures FromLittleEndian(LittleEndian(n, width)) == n
  {
    if width > 0 {
      FromLittleEndianOfLittleEndian(n / 256, width - 1);
      assert LittleEndian(n, width)[1..] == LittleEndian(n / 256, width - 1);
    }
  }

  lemma {:induction false} FromLittleEndianBound(b: seq<byte>)
    ensures FromLittleEndian(b) < Pow256(|b|)
  {
    if b != [] {
      FromLittleEndianBound(b[1..]);
    }
  }

  function DecodeU64(b: seq<byte>): U64
    requires |b| == 8
  {
    FromLittleEndianBound(b);
    FromLittleEndian(b)
  }

  lemma DecodeU64OfLittleEndian(n: U64)
    ensures DecodeU64(LittleEndian(n, 8)) == n
  {
    FromLittleEndianOfLittleEndian(n, 8);
  }

  /** Byte `i` of a number is its `i`-th digit to base 256. */
  lemma {:induction false} LittleEndianDigit(n: nat, width: nat, i: nat)
    requires i < width
    ensures LittleEndian(n, width)[i] == n / Pow256(i) % 256
  {
    if i > 0 {
      LittleEndianDigit(n / 256, width - 1, i - 1);
      DivideTwice(n, Pow256(i - 1));
    }
  }

  lemma DivideTwice(n: nat, d: nat)
    requires d > 0
    ensures n / 256 / d == n / (256 * d)
  {
    var q, r := n / 256 / d, n / 256 % d;
    assert n / 256 == q * d + r;
    assert n == 256 * (q * d + r) + n % 256;
    assert n == q * (256 * d) + (256 * r + n % 256);
    assert 256 * r + n % 256 < 256 * d;
    QuotientIs(n, 256 * d, q, 256 * r + n % 256);
  }

  lemma QuotientIs(n: nat, d: nat, q: nat, r: nat)
    requires n == q * d + r && r < d
    ensures n / d == q
  {
    var p := n / d;
    assert (p - q) * d == r - n % d;
    SmallProduct(p - q, d);
  }

  lemma SmallProduct(x: int, d: nat)
    ensures x >= 1 ==> x * d >= d
    ensures x <= -1 ==> x * d + d <= 0
  {
  }

  // ---- token usage

  datatype Usage = Usage(input: U64, output: U64, costCents: U64)

  function EncodeTokenUsage(u: Usage): (b: seq<byte>)
    ensures |b| == 24
  {
    LittleEndian(u.input, 8) + LittleEndian(u.output, 8) + LittleEndian(u.costCents, 8)
  }

  function DecodeTokenUsage(b: seq<byte>): Option<Usage> {
    if |b| < 24 then None
    else Some(Usage(DecodeU64(b[0..8]), DecodeU64(b[8..16]), DecodeU64(b[16..24])))
  }

  lemma TokenUsageRoundTrip(u: Usage)
    ensures DecodeTokenUsage(EncodeTokenUsage(u)) == Some(u)
  {
    var b := EncodeTokenUsage(u);
    assert b[0..8] == LittleEndian(u.input, 8);
    assert b[8..16] == LittleEndian(u.output, 8);
    assert b[16..24] == LittleEndian(u.costCents, 8);
    DecodeU64OfLittleEndian(u.input);
    DecodeU64OfLittleEndian(u.output);
    DecodeU64OfLittleEndian(u.costCents);
  }

  // ---- conversation turns

  datatype Role = User | Assistant | Tool | System

  function RoleByte(r: Role): byte {
    match r case User => 0 case Assistant => 1 case Tool => 2 case System => 3
  }

  function RoleFromByte(b: byte): Option<Role> {
    match b
    case 0 => Some(User)
    case 1 => Some(Assistant)
    case 2 => Some(Tool)
    case 3 => Some(System)
    case _ => None
  }

  const MAX_TURN_TEXT: nat := HID_MAX_PAYLOAD - 1

  /** The role and the longest whole-character prefix of the text that fits. */
  function TurnPayload(role: Role, text: string): seq<byte> {
    [RoleByte(role)] + Encode(text[..FittingChars(text, MAX_TURN_TEXT)])
  }

  /** Walks back from byte 57 to a character boundary, as the encoder does. */
  method EncodeTurnAppend(role: Role, text: string) returns (buf: seq<byte>)
    ensures buf == TurnPayload(role, text)
  {
    var bytes := Encode(text);
    buf := [RoleByte(role)];
    if |bytes| > MAX_TURN_TEXT {
      var cut := MAX_TURN_TEXT;
      while cut > 0 && !IsCharBoundary(bytes, cut)
        invariant 0 <= cut <= MAX_TURN_TEXT
        invariant FittingChars(text, cut) == FittingChars(text, MAX_TURN_TEXT)
      {
        NoBoundaryNoCharacter(text, cut);
        cut := cut - 1;
      }
      BoundaryIsWholePrefix(text, cut);
      buf := buf + bytes[..cut];
    } else {
      AllFits(text, MAX_TURN_TEXT);
      assert text[..|text|] == text;
      buf := buf + bytes;
    }
  }

  lemma {:induction false} NoBoundaryNoCharacter(s: string, at: nat)
    requires 0 < at <= |Encode(s)| && !IsCharBoundary(Encode(s), at)
    ensures FittingChars(s, at - 1) == FittingChars(s, at)
  {
    var c := EncodeChar(s[0]);
    if |c| < at {
      assert Encode(s)[at] == Encode(s[1..])[at - |c|];
      NoBoundaryNoCharacter(s[1..], at - |c|);
    } else if |c| == at {
      LeadByteIsNotContinuation(s[1..]);
      assert false;
    }
  }

  lemma {:induction false} AllFits(s: string, room: nat)
    ensures FittingChars(s, room) == |s| <==> |Encode(s)| <= room
  {
    if s != "" {
      if |EncodeChar(s[0])| <= room {
        AllFits(s[1..], room - |EncodeChar(s[0])|);
      }
    }
  }

  function DecodeTurnAppend(b: seq<byte>): Option<(Role, string)> {
    if b == [] then None
    else
      var role := RoleFromByte(b[0]);
      if role.None? then None
      else
        var text := Decode(b[1..]);
        if text.None? then None else Some((role.value, text.value))
  }

  /**
   * A turn payload fits one report, decodes to the longest whole-character
   * prefix of the text within 57 bytes, loses nothing when the text fits, and
   * carries at least 54 bytes of text when it does not.
   */
  lemma TurnPayloadIsLongestPrefix(role: Role, text: string)
    ensures var b := TurnPayload(role, text);
            var k := FittingChars(text, 57);
            && |b| <= 58
            && DecodeTurnAppend(b) == Some((role, text[..k]))
            && (|Encode(text)| <= 57 ==> text[..k] == text)
            && (|Encode(text)| > 57 ==> k < |text| && 54 <= |b| - 1)
            && (k < |text| ==> |Encode(text[..k + 1])| > 57)
  {
    var b := TurnPayload(role, text);
    var k := FittingChars(text, MAX_TURN_TEXT);
    FittingIsLongest(text, MAX_TURN_TEXT);
    AllFits(text, MAX_TURN_TEXT);
    DecodeEncode(text[..k]);
    assert b[1..] == Encode(text[..k]);
  }

  // ---- permission requests

  function Min(a: nat, b: nat): nat {
    if a <= b then a else b
  }

  function ToolBytes(tool: string): (b: seq<byte>)
    ensures |b| <= 24
  {
    Encode(tool)[..Min(|Encode(tool)|, 24)]
  }

  function ArgsRoom(tool: string): nat {
    HID_MAX_PAYLOAD - 9 - |ToolBytes(tool)|
  }

  /** Both texts are cut at bytes, not at characters. */
  function EncodePermissionRequest(reqId: U64, tool: string, args: string): (b: seq<byte>)
    ensures |b| <= HID_MAX_PAYLOAD
  {
    LittleEndian(reqId, 8) + [|ToolBytes(tool)|] + ToolBytes(tool)
    + Encode(args)[..Min(|Encode(args)|, ArgsRoom(tool))]
  }

  function DecodePermissionRequest(b: seq<byte>): Option<(U64, string, string)> {
    if |b| < 9 then None
    else
      var toolLen := b[8];
      if 9 + toolLen > |b| then None
      else
        var tool := Decode(b[9..9 + toolLen]);
        var args := Decode(b[9 + toolLen..]);
        if tool.None? || args.None? then None
        else Some((DecodeU64(b[0..8]), tool.value, args.value))
  }

  /** The cut the encoder makes leaves whole characters. */
  predicate CutsCleanly(s: string, room: nat) {
    |Encode(s)| <= room || IsCharBoundary(Encode(s), room)
  }

  lemma CutText(s: string, room: nat)
    ensures var cut := Decode(Encode(s)[..Min(|Encode(s)|, room)]);
            && (cut.Some? <==> CutsCleanly(s, room))
            && (cut.Some? ==> cut.value == s[..FittingChars(s, room)])
  {
    if |Encode(s)| <= room {
      AllFits(s, room);
      DecodeEncode(s);
      assert Encode(s)[..|Encode(s)|] == Encode(s);
      assert s[..|s|] == s;
    } else {
      CutDecodesAtBoundaries(s, room);
    }
  }

  /**
   * The request decodes exactly when neither byte cut splits a character, and
   * then to the request id and the longest prefixes that fit.
   */
  lemma PermissionRequestRoundTrip(reqId: U64, tool: string, args: string)
    ensures var r := DecodePermissionRequest(EncodePermissionRequest(reqId, tool, args));
            var argsRoom: nat := 49 - Min(|Encode(tool)|, 24);
            && (r.Some? <==> CutsCleanly(tool, 24) && CutsCleanly(args, argsRoom))
            && (r.Some? ==> r.value == (reqId, tool[..FittingChars(tool, 24)], args[..FittingChars(args, argsRoom)]))
    ensures var b := EncodePermissionRequest(reqId, tool, args);
            && |b| == 9 + Min(|Encode(tool)|, 24) + Min(|Encode(args)|, 49 - Min(|Encode(tool)|, 24))
            && b[8] == Min(|Encode(tool)|, 24) && b[9..9 + b[8]] <= Encode(tool) && b[9 + b[8]..] <= Encode(args)
  {
    var b := EncodePermissionRequest(reqId, tool, args);
    var toolBytes := ToolBytes(tool);
    assert b[0..8] == LittleEndian(reqId, 8);
    assert b[8] == |toolBytes|;
    assert b[9..9 + |toolBytes|] == toolBytes;
    assert b[9 + |toolBytes|..] == Encode(args)[..Min(|Encode(args)|, ArgsRoom(tool))];
    DecodeU64OfLittleEndian(reqId);
    CutText(tool, 24);
    CutText(args, ArgsRoom(tool));
  }

  // ---- permission responses

  datatype Decision = Allow | Deny | Always

  function DecisionByte(d: Decision): byte {
    match d case Allow => 0 case Deny => 1 case Always => 2
  }

  function EncodePermissionResponse(reqId: U64, d: Decision): seq<byte> {
    LittleEndian(reqId, 8) + [DecisionByte(d)]
  }

  function DecodePermissionResponse(b: seq<byte>): Option<(U64, Decision)> {
    if |b| < 9 then None
    else
      var reqId := DecodeU64(b[0..8]);
      match b[8]
      case 0 => Some((reqId, Allow))
      case 1 => Some((reqId, Deny))
      case 2 => Some((reqId, Always))
      case _ => None
  }

  /** The codes of the decisions and of the roles. */
  lemma CodesAreProtocols(reqId: U64)
    ensures var id := LittleEndian(reqId, 8);
            && DecodePermissionResponse(id + [0]) == Some((reqId, Allow))
            && DecodePermissionResponse(id + [1]) == Some((reqId, Deny))
            && DecodePermissionResponse(id + [2]) == Some((reqId, Always))
    ensures RoleByte(User) == 0 && RoleByte(Assistant) == 1 && RoleByte(Tool) == 2 && RoleByte(System) == 3
  {
    PermissionResponseRoundTrip(reqId, Allow);
    PermissionResponseRoundTrip(reqId, Deny);
    PermissionResponseRoundTrip(reqId, Always);
  }

  lemma PermissionResponseRoundTrip(reqId: U64, d: Decision)
    ensures DecodePermissionResponse(EncodePermissionResponse(reqId, d)) == Some((reqId, d))
  {
    assert EncodePermissionResponse(reqId, d)[0..8] == LittleEndian(reqId, 8);
    DecodeU64OfLittleEndian(reqId);
  }

  // ---- agent metadata

  function CwdRoom(branch: string): nat {
    HID_MAX_PAYLOAD - (2 + Min(|Encode(branch)|, 16))
  }

  function CwdBytes(cwd: string, branch: string): (b: seq<byte>)
    ensures |b| <= CwdRoom(branch)
  {
    Encode(cwd)[..Min(|Encode(cwd)|, CwdRoom(branch))]
  }

  function EncodeAgentMeta(kind: byte, cwd: string, branch: string): (b: seq<byte>)
    ensures |b| <= HID_MAX_PAYLOAD
  {
    var c := CwdBytes(cwd, branch);
    [kind, |c|] + c + Encode(branch)[..Min(|Encode(branch)|, HID_MAX_PAYLOAD - 2 - |c|)]
  }

  function DecodeAgentMeta(b: seq<byte>): Option<(byte, string, string)> {
    if |b| < 2 then None
    else
      var cwdLen := b[1];
      if 2 + cwdLen > |b| then None
      else
        var cwd := Decode(b[2..2 + cwdLen]);
        var branch := Decode(b[2 + cwdLen..]);
        if cwd.None? || branch.None? then None
        else Some((b[0], cwd.value, branch.value))
  }

  lemma AgentMetaRoundTrip(kind: byte, cwd: string, branch: string)
    ensures var r := DecodeAgentMeta(EncodeAgentMeta(kind, cwd, branch));
            var cwdRoom: nat := 56 - Min(|Encode(branch)|, 16);
            var room: nat := 56 - Min(|Encode(cwd)|, cwdRoom);
            && (r.Some? <==> CutsCleanly(cwd, cwdRoom) && CutsCleanly(branch, room))
            && (r.Some? ==> r.value == (kind, cwd[..FittingChars(cwd, cwdRoom)], branch[..FittingChars(branch, room)]))
    ensures var b := EncodeAgentMeta(kind, cwd, branch);
            && b[0] == kind && b[1] == Min(|Encode(cwd)|, 56 - Min(|Encode(branch)|, 16))
            && b[2..2 + b[1]] <= Encode(cwd)
            && b[2 + b[1]..] <= Encode(branch)
            && (b[2..2 + b[1]] + b[2 + b[1]..] != Encode(cwd) + Encode(branch) ==> |b| == 58)
  {
    hide Encode, Decode, CutsCleanly, FittingChars;
    MetaLayout(kind, cwd, branch);
    var room := HID_MAX_PAYLOAD - 2 - |CwdBytes(cwd, branch)|;
    CutText(cwd, CwdRoom(branch));
    CutText(branch, room);
  }

  lemma MetaLayout(kind: byte, cwd: string, branch: string)
    ensures var b, c := EncodeAgentMeta(kind, cwd, branch), CwdBytes(cwd, branch);
            && |b| >= 2 + |c| && b[0] == kind && b[1] == |c| && b[2..2 + |c|] == c
            && b[2 + |c|..] == Encode(branch)[..Min(|Encode(branch)|, HID_MAX_PAYLOAD - 2 - |c|)]
            && (|b| < 58 ==> c == Encode(cwd) && b[2 + |c|..] == Encode(branch))
  {
    hide Encode;
  }

  // ---- texts whose cut splits a character

  const E_ACUTE: string := "\U{E9}"

  lemma EncodedAccent()
    ensures Encode(E_ACUTE) == [0xC3, 0xA9]
  {
    assert E_ACUTE == [E_ACUTE[0]] + "";
    EncodeCons(E_ACUTE[0], "");
    assert EncodeChar(E_ACUTE[0]) == [0xC3, 0xA9];
  }

  /** A two-byte character that begins on the last byte there is room for. */
  lemma CutSplitsAccent(prefix: string, room: nat)
    requires |Encode(prefix)| + 1 == room
    ensures !CutsCleanly(prefix + E_ACUTE, room)
  {
    EncodedAccent();
    EncodeAppend(prefix, E_ACUTE);
    hide Encode;
    assert Encode(prefix + E_ACUTE)[room] == 0xA9;
  }

  function Letters(n: nat): string {
    seq(n, _ => 'a')
  }

  lemma {:induction false} EncodedLetters(n: nat)
    ensures |Encode(Letters(n))| == n
  {
    if n > 0 {
      assert Letters(n) == ['a'] + Letters(n - 1);
      EncodeCons('a', Letters(n - 1));
      EncodedLetters(n - 1);
    }
  }

  /** For example, a tool named with 23 letters and an accented one cannot be read, whatever the arguments. */
  lemma AccentedToolIsLost(reqId: U64, args: string)
    ensures DecodePermissionRequest(EncodePermissionRequest(reqId, Letters(23) + E_ACUTE, args)).None?
  {
    EncodedLetters(23);
    CutSplitsAccent(Letters(23), 24);
    PermissionRequestRoundTrip(reqId, Letters(23) + E_ACUTE, args);
    hide CutsCleanly, DecodePermissionRequest, EncodePermissionRequest;
  }

  /** Nor can metadata with a directory of 55 letters and an accented one; the daemon sends an empty branch. */
  lemma AccentedDirectoryIsLost(kind: byte)
    ensures DecodeAgentMeta(EncodeAgentMeta(kind, Letters(55) + E_ACUTE, "")).None?
  {
    EncodedLetters(55);
    CutSplitsAccent(Letters(55), 56);
    AgentMetaRoundTrip(kind, Letters(55) + E_ACUTE, "");
    assert CwdRoom("") == 56;
    hide CutsCleanly, DecodeAgentMeta, EncodeAgentMeta;
  }
}

/**
 * Base64 (section 4 of RFC 4648) as the profile rewriting uses it. Shifts and
 * masks are written as division and remainder by powers of two.
 */
module Base64 {
  import opened Wrappers
  import opened Utf8

  datatype Base64Error = BadLength | MisplacedPadding | InvalidByte(b: byte) | TooMuchPadding

  const PAD: byte := 61

  type Sextet = n: int | 0 <= n < 64

  /** The alphabet A-Z a-z 0-9 + / */
  function Symbol(v: Sextet): (b: byte)
    ensures b != PAD && 43 <= b < 123 && b != 92
  {
    if v < 26 then 65 + v else if v < 52 then 97 + (v - 26) else if v < 62 then 48 + (v - 52)
    else if v == 62 then 43 else 47
  }

  /** The table of the standard: four runs of consecutive characters, and where each begins and ends. */
  lemma SymbolsAreStandard(v: Sextet)
    ensures Symbol(0) == 'A' as int && Symbol(25) == 'Z' as int && Symbol(26) == 'a' as int && Symbol(51) == 'z' as int
    ensures Symbol(52) == '0' as int && Symbol(61) == '9' as int && Symbol(62) == '+' as int && Symbol(63) == '/' as int
    ensures v != 25 && v != 51 && v < 61 ==> Symbol(v + 1) == Symbol(v) + 1
    ensures PAD == '=' as int
  {
  }

  function ValueOf(b: byte): Option<Sextet> {
    if 65 <= b <= 90 then Some(b - 65)
    else if 97 <= b <= 122 then Some(b - 97 + 26)
    else if 48 <= b <= 57 then Some(b - 48 + 52)
    else if b == 43 then Some(62)
    else if b == 47 then Some(63)
    else None
  }

  predicate IsAsciiWhitespace(b: byte) {
    b == 32 || b == 9 || b == 10 || b == 12 || b == 13
  }

  // ---- encoding

  /** Three bytes as one number. */
  function Bits24(b0: int, b1: int, b2: int): int {
    b0 * 65536 + b1 * 256 + b2
  }

  /** Four sextets as one number. */
  function Join(a: int, b: int, c: int, d: int): int {
    a * 262144 + b * 4096 + c * 64 + d
  }

  lemma HighSextets(s0: Sextet, s1: Sextet, low: nat)
    requires low < 4096
    ensures var n := s0 * 262144 + s1 * 4096 + low; n / 262144 == s0 && n / 4096 % 64 == s1
  {
    var n: int := s0 * 262144 + s1 * 4096 + low;
    assert n / 4096 == s0 * 64 + s1;
  }

  lemma LowSextets(high: nat, s2: Sextet, s3: Sextet)
    ensures var n := high * 4096 + s2 * 64 + s3; n / 64 % 64 == s2 && n % 64 == s3
  {
    var n: int := high * 4096 + s2 * 64 + s3;
    assert n / 64 == high * 64 + s2;
  }

  /** The sextets of 24 bits, cut out of the number and cut out of its bytes. */
  lemma SextetsOf(b0: byte, b1: byte, b2: byte)
    ensures var n := Bits24(b0, b1, b2);
            && n / 262144 % 64 == b0 / 4
            && n / 4096 % 64 == b0 % 4 * 16 + b1 / 16
            && n / 64 % 64 == b1 % 16 * 4 + b2 / 64
            && n % 64 == b2 % 64
  {
    var s0, s1, s2, s3 := b0 / 4, b0 % 4 * 16 + b1 / 16, b1 % 16 * 4 + b2 / 64, b2 % 64;
    HighSextets(s0, s1, s2 * 64 + s3);
    LowSextets(s0 * 64 + s1, s2, s3);
    assert Bits24(b0, b1, b2) == s0 * 262144 + s1 * 4096 + (s2 * 64 + s3);
  }

  /** One group of up to three bytes. */
  function EncodeGroup(b: seq<byte>): (out: seq<byte>)
    requires 1 <= |b| <= 3
    ensures |out| == 4
  {
    var n := Bits24(b[0], if |b| > 1 then b[1] else 0, if |b| > 2 then b[2] else 0);
    [Symbol(n / 262144 % 64), Symbol(n / 4096 % 64),
     if |b| >= 2 then Symbol(n / 64 % 64) else PAD,
     if |b| >= 3 then Symbol(n % 64) else PAD]
  }

  function EncodeBytes(input: seq<byte>): (out: seq<byte>) {
    if input == [] then []
    else
      var n := if |input| < 3 then |input| else 3;
      EncodeGroup(input[..n]) + EncodeBytes(input[n..])
  }

  lemma EncodeNext(out: seq<byte>, input: seq<byte>, i: nat)
    requires i < |input|
    ensures var n := if |input| - i < 3 then |input| - i else 3;
            out + EncodeBytes(input[i..]) == out + EncodeGroup(input[i..i + n]) + EncodeBytes(input[i + n..])
  {
    var n := if |input| - i < 3 then |input| - i else 3;
    hide EncodeGroup;
    assert input[i..][..n] == input[i..i + n] && input[i..][n..] == input[i + n..];
    assert out + (EncodeGroup(input[i..i + n]) + EncodeBytes(input[i + n..]))
        == out + EncodeGroup(input[i..i + n]) + EncodeBytes(input[i + n..]);
  }

  method Base64EncodeBytes(input: seq<byte>) returns (out: seq<byte>)
    ensures out == EncodeBytes(input)
  {
    hide EncodeBytes, EncodeGroup;
    out := [];
    var i := 0;
    assert input[0..] == input && [] + EncodeBytes(input) == EncodeBytes(input);
    while i < |input|
      invariant i <= |input|
      invariant out + EncodeBytes(input[i..]) == EncodeBytes(input)
    {
      var n := if |input| - i < 3 then |input| - i else 3;
      EncodeNext(out, input, i);
      var group := EncodeChunk(input[i..i + n]);
      out := out + group;
      i := i + n;
    }
    NothingToEncode();
    assert input[i..] == [];
  }

  lemma NothingToEncode()
    ensures EncodeBytes([]) == []
  {
  }

  method EncodeChunk(chunk: seq<byte>) returns (group: seq<byte>)
    requires 1 <= |chunk| <= 3
    ensures group == EncodeGroup(chunk)
  {
    var b0 := chunk[0];
    var b1 := if |chunk| > 1 then chunk[1] else 0;
    var b2 := if |chunk| > 2 then chunk[2] else 0;
    var n := Bits24(b0, b1, b2);
    group := [Symbol(n / 262144 % 64), Symbol(n / 4096 % 64)];
    if |chunk| >= 2 {
      group := group + [Symbol(n / 64 % 64)];
    } else {
      group := group + [PAD];
    }
    if |chunk| >= 3 {
      group := group + [Symbol(n % 64)];
    } else {
      group := group + [PAD];
    }
  }

  /** The agent discovery's own encoder cuts the sextets out of the bytes. */
  method EncodeByPieces(input: seq<byte>) returns (out: seq<byte>)
    ensures out == EncodeBytes(input)
  {
    hide EncodeBytes, EncodeGroup;
    out := [];
    var i := 0;
    assert input[0..] == input && [] + EncodeBytes(input) == EncodeBytes(input);
    while i < |input|
      invariant i <= |input|
      invariant out + EncodeBytes(input[i..]) == EncodeBytes(input)
    {
      var n := if |input| - i < 3 then |input| - i else 3;
      EncodeNext(out, input, i);
      var group := EncodeChunkByPieces(input[i..i + n]);
      out := out + group;
      i := i + n;
    }
    NothingToEncode();
    assert input[i..] == [];
  }

  method EncodeChunkByPieces(chunk: seq<byte>) returns (group: seq<byte>)
    requires 1 <= |chunk| <= 3
    ensures group == EncodeGroup(chunk)
  {
    var b0 := chunk[0];
    var b1 := if |chunk| > 1 then chunk[1] else 0;
    var b2 := if |chunk| > 2 then chunk[2] else 0;
    SextetsOf(b0, b1, b2);
    hide Bits24, Symbol;
    group := [Symbol(b0 / 4), Symbol(b0 % 4 * 16 + b1 / 16)];
    if |chunk| > 1 {
      group := group + [Symbol(b1 % 16 * 4 + b2 / 64)];
    } else {
      group := group + [PAD];
    }
    if |chunk| > 2 {
      group := group + [Symbol(b2 % 64)];
    } else {
      group := group + [PAD];
    }
  }

  // ---- decoding

  function Clean(input: seq<byte>): seq<byte> {
    if input == [] then []
    else if IsAsciiWhitespace(input[0]) then Clean(input[1..])
    else [input[0]] + Clean(input[1..])
  }

  /** The values of the symbols of a group so far, and the padding seen. */
  datatype Group = Group(values: seq<Sextet>, padding: nat)

  function ReadSymbol(g: Group, b: byte): Result<Group, Base64Error> {
    if b == PAD then Success(Group(g.values + [0], g.padding + 1))
    else if g.padding > 0 then Failure(MisplacedPadding)
    else
      match ValueOf(b)
      case Some(v) => Success(Group(g.values + [v], g.padding))
      case None => Failure(InvalidByte(b))
  }

  function ReadGroup(bytes: seq<byte>): (r: Result<Group, Base64Error>)
    ensures r.Success? ==> |r.value.values| == |bytes|
  {
    if bytes == [] then Success(Group([], 0))
    else
      match ReadGroup(bytes[..|bytes| - 1])
      case Failure(e) => Failure(e)
      case Success(g) => ReadSymbol(g, bytes[|bytes| - 1])
  }

  function GroupBytes(v: seq<Sextet>, padding: nat): seq<byte>
    requires |v| == 4
  {
    var n := Join(v[0], v[1], v[2], v[3]);
    [n / 65536 % 256] + (if padding < 2 then [n / 256 % 256] else []) + (if padding < 1 then [n % 256] else [])
  }

  function DecodeGroup(bytes: seq<byte>): Result<seq<byte>, Base64Error>
    requires |bytes| == 4
  {
    match ReadGroup(bytes)
    case Failure(e) => Failure(e)
    case Success(g) => if g.padding > 2 then Failure(TooMuchPadding) else Success(GroupBytes(g.values, g.padding))
  }

  /** The groups of four in order; the first bad one decides the error. */
  function DecodeGroups(clean: seq<byte>): Result<seq<byte>, Base64Error> {
    if |clean| < 4 then Success([])
    else
      match DecodeGroup(clean[..4])
      case Failure(e) => Failure(e)
      case Success(first) => Prefixed(first, DecodeGroups(clean[4..]))
  }

  function Prefixed(front: seq<byte>, r: Result<seq<byte>, Base64Error>): Result<seq<byte>, Base64Error> {
    match r
    case Failure(e) => Failure(e)
    case Success(rest) => Success(front + rest)
  }

  lemma PrefixedTwice(a: seq<byte>, b: seq<byte>, r: Result<seq<byte>, Base64Error>)
    ensures Prefixed(a, Prefixed(b, r)) == Prefixed(a + b, r)
    ensures Prefixed([], r) == r
  {
    if r.Success? {
      assert a + (b + r.value) == a + b + r.value && [] + r.value == r.value;
    }
  }

  function DecodeBytes(input: seq<byte>): Result<seq<byte>, Base64Error> {
    var clean := Clean(input);
    if |clean| % 4 != 0 then Failure(BadLength) else DecodeGroups(clean)
  }

  method Base64DecodeBytes(input: seq<byte>) returns (r: Result<seq<byte>, Base64Error>)
    ensures r == DecodeBytes(input)
  {
    var clean: seq<byte> := [];
    assert input[0..] == input;
    for i := 0 to |input|
      invariant clean + Clean(input[i..]) == Clean(input)
    {
      assert input[i..][1..] == input[i + 1..];
      if IsAsciiWhitespace(input[i]) {
        continue;
      }
      clean := clean + [input[i]];
    }
    assert clean == Clean(input);
    if |clean| % 4 != 0 {
      return Failure(BadLength);
    }
    r := DecodeClean(clean);
  }

  /** The loop over the groups of four. */
  method DecodeClean(clean: seq<byte>) returns (r: Result<seq<byte>, Base64Error>)
    requires |clean| % 4 == 0
    ensures r == DecodeGroups(clean)
  {
    hide ReadGroup, GroupBytes, DecodeGroups;
    var out: seq<byte> := [];
    PrefixedTwice([], [], DecodeGroups(clean));
    assert clean[0..] == clean;
    for k := 0 to |clean| / 4
      invariant DecodeGroups(clean) == Prefixed(out, DecodeGroups(clean[4 * k..]))
    {
      var chunk := clean[4 * k..4 * k + 4];
      DecodeNext(clean, 4 * k);
      var group := ReadSymbols(chunk);
      if group.Failure? {
        return Failure(group.error);
      }
      if group.value.padding > 2 {
        return Failure(TooMuchPadding);
      }
      var bytes := PutBytes(group.value.values, group.value.padding);
      PrefixedTwice(out, bytes, DecodeGroups(clean[4 * k + 4..]));
      out := out + bytes;
    }
    DecodedAll(clean, |clean|);
    r := Success(out);
    assert out + [] == out;
  }

  lemma DecodeNext(clean: seq<byte>, at: nat)
    requires at + 4 <= |clean|
    ensures DecodeGroups(clean[at..]) ==
      match DecodeGroup(clean[at..at + 4])
      case Failure(e) => Failure(e)
      case Success(first) => Prefixed(first, DecodeGroups(clean[at + 4..]))
  {
    hide DecodeGroup;
    assert clean[at..][..4] == clean[at..at + 4] && clean[at..][4..] == clean[at + 4..];
  }

  lemma DecodedAll(clean: seq<byte>, at: nat)
    requires at == |clean|
    ensures DecodeGroups(clean[at..]) == Success([])
  {
  }

  method PutBytes(values: seq<Sextet>, padding: nat) returns (bytes: seq<byte>)
    requires |values| == 4
    ensures bytes == GroupBytes(values, padding)
  {
    var n := Join(values[0], values[1], values[2], values[3]);
    bytes := [n / 65536 % 256];
    if padding < 2 {
      bytes := bytes + [n / 256 % 256];
    }
    if padding < 1 {
      bytes := bytes + [n % 256];
    }
  }

  /** The loop over the symbols of a group. */
  method ReadSymbols(chunk: seq<byte>) returns (r: Result<Group, Base64Error>)
    ensures r == ReadGroup(chunk)
  {
    var g := Group([], 0);
    for i := 0 to |chunk|
      invariant ReadGroup(chunk[..i]) == Success(g)
    {
      assert chunk[..i + 1][..i] == chunk[..i];
      var next := ReadSymbol(g, chunk[i]);
      if next.Failure? {
        FailureStays(chunk, i + 1);
        return next;
      }
      g := next.value;
    }
    assert chunk[..|chunk|] == chunk;
    r := Success(g);
  }

  lemma {:induction false} FailureStays(chunk: seq<byte>, i: nat)
    requires i <= |chunk| && ReadGroup(chunk[..i]).Failure?
    ensures ReadGroup(chunk) == ReadGroup(chunk[..i])
    decreases |chunk| - i
  {
    if i < |chunk| {
      assert chunk[..i + 1][..i] == chunk[..i];
      FailureStays(chunk, i + 1);
    } else {
      assert chunk[..i] == chunk;
    }
  }

  // ---- the round trip

  lemma ValueOfSymbol(v: Sextet)
    ensures ValueOf(Symbol(v)) == Some(v)
  {
  }

  lemma ReadTwo(a: Sextet, b: Sextet)
    ensures ReadGroup([Symbol(a), Symbol(b)]) == Success(Group([a, b], 0))
  {
    ReadOne([], Group([], 0), a);
    hide ReadGroup, Symbol;
    assert [] + [Symbol(a)] == [Symbol(a)] && [] + [a] == [a];
    ReadOne([Symbol(a)], Group([a], 0), b);
    assert [Symbol(a)] + [Symbol(b)] == [Symbol(a), Symbol(b)] && [a] + [b] == [a, b];
  }

  /** Reading a group of symbols and padding. */
  lemma ReadSymbolsAndPadding(a: Sextet, b: Sextet, c: Sextet, d: Sextet)
    ensures ReadGroup([Symbol(a), Symbol(b), Symbol(c), Symbol(d)]) == Success(Group([a, b, c, d], 0))
    ensures ReadGroup([Symbol(a), Symbol(b), Symbol(c), PAD]) == Success(Group([a, b, c, 0], 1))
    ensures ReadGroup([Symbol(a), Symbol(b), PAD, PAD]) == Success(Group([a, b, 0, 0], 2))
  {
    hide ReadGroup, Symbol;
    var two, three, padded := [Symbol(a), Symbol(b)], [Symbol(a), Symbol(b), Symbol(c)], [Symbol(a), Symbol(b), PAD];
    ReadTwo(a, b);
    ReadOne(two, Group([a, b], 0), c);
    ReadPad(two, Group([a, b], 0));
    assert two + [Symbol(c)] == three && two + [PAD] == padded;
    assert [a, b] + [c] == [a, b, c] && [a, b] + [0] == [a, b, 0];
    ReadOne(three, Group([a, b, c], 0), d);
    ReadPad(three, Group([a, b, c], 0));
    ReadPad(padded, Group([a, b, 0], 1));
    assert three + [Symbol(d)] == [Symbol(a), Symbol(b), Symbol(c), Symbol(d)];
    assert three + [PAD] == [Symbol(a), Symbol(b), Symbol(c), PAD];
    assert padded + [PAD] == [Symbol(a), Symbol(b), PAD, PAD];
    assert [a, b, c] + [d] == [a, b, c, d] && [a, b, c] + [0] == [a, b, c, 0] && [a, b, 0] + [0] == [a, b, 0, 0];
  }

  lemma ReadOne(before: seq<byte>, g: Group, v: Sextet)
    requires ReadGroup(before) == Success(g) && g.padding == 0
    ensures ReadGroup(before + [Symbol(v)]) == Success(Group(g.values + [v], 0))
  {
    ValueOfSymbol(v);
    assert (before + [Symbol(v)])[..|before|] == before;
  }

  lemma ReadPad(before: seq<byte>, g: Group)
    requires ReadGroup(before) == Success(g)
    ensures ReadGroup(before + [PAD]) == Success(Group(g.values + [0], g.padding + 1))
  {
    assert (before + [PAD])[..|before|] == before;
  }

  lemma BytesOfGroup(b0: byte, b1: byte, b2: byte)
    ensures var n := Bits24(b0, b1, b2);
            n / 65536 % 256 == b0 && n / 256 % 256 == b1 && n % 256 == b2
  {
    var n := Bits24(b0, b1, b2);
    assert n / 256 == b0 * 256 + b1;
  }

  /** The bytes of a group, zero where there is none. */
  function ByteAt(b: seq<byte>, i: nat): byte {
    if i < |b| then b[i] else 0
  }

  lemma EncodedGroup(b: seq<byte>)
    requires 1 <= |b| <= 3
    ensures var b0, b1, b2 := ByteAt(b, 0), ByteAt(b, 1), ByteAt(b, 2);
            var s0, s1, s2, s3 := b0 / 4, b0 % 4 * 16 + b1 / 16, b1 % 16 * 4 + b2 / 64, b2 % 64;
            && Join(s0, s1, s2, s3) == Bits24(b0, b1, b2)
            && (|b| == 1 ==> s2 == s3 == 0) && (|b| == 2 ==> s3 == 0)
            && EncodeGroup(b) == [Symbol(s0), Symbol(s1), if |b| >= 2 then Symbol(s2) else PAD,
                                  if |b| >= 3 then Symbol(s3) else PAD]
  {
    SextetsOf(ByteAt(b, 0), ByteAt(b, 1), ByteAt(b, 2));
    hide Symbol;
  }

  /** Each group decodes to its bytes. */
  lemma GroupRoundTrip(b: seq<byte>)
    requires 1 <= |b| <= 3
    ensures DecodeGroup(EncodeGroup(b)) == Success(b)
  {
    hide ReadGroup, Symbol, Bits24, Join, EncodeGroup;
    var b0, b1, b2 := ByteAt(b, 0), ByteAt(b, 1), ByteAt(b, 2);
    EncodedGroup(b);
    var s0, s1, s2, s3 := b0 / 4, b0 % 4 * 16 + b1 / 16, b1 % 16 * 4 + b2 / 64, b2 % 64;
    ReadSymbolsAndPadding(s0, s1, s2, s3);
    BytesOfGroup(b0, b1, b2);
    if |b| == 1 {
      assert GroupBytes([s0, s1, 0, 0], 2) == [b0] == b;
    } else if |b| == 2 {
      assert GroupBytes([s0, s1, s2, 0], 1) == [b0, b1] == b;
    } else {
      assert GroupBytes([s0, s1, s2, s3], 0) == [b0, b1, b2] == b;
    }
  }

  lemma {:induction false} DecodeGroupsOfEncode(input: seq<byte>)
    ensures DecodeGroups(EncodeBytes(input)) == Success(input)
    decreases |input|
  {
    hide EncodeGroup, DecodeGroup;
    if input != [] {
      var n := if |input| < 3 then |input| else 3;
      var code := EncodeBytes(input);
      GroupRoundTrip(input[..n]);
      DecodeGroupsOfEncode(input[n..]);
      assert code[..4] == EncodeGroup(input[..n]) && code[4..] == EncodeBytes(input[n..]);
      assert input[..n] + input[n..] == input;
    }
  }

  lemma {:induction false} WholeGroups(input: seq<byte>)
    ensures |EncodeBytes(input)| % 4 == 0
    decreases |input|
  {
    hide EncodeGroup;
    if input != [] {
      WholeGroups(input[if |input| < 3 then |input| else 3..]);
    }
  }

  /** Decoding undoes encoding, wherever white space was inserted into the text. */
  lemma DecodeEncodeWithWhitespace(input: seq<byte>, text: seq<byte>)
    requires Clean(text) == EncodeBytes(input)
    ensures DecodeBytes(text) == Success(input)
  {
    DecodeGroupsOfEncode(input);
    WholeGroups(input);
    hide EncodeBytes, DecodeGroups;
  }

  lemma {:induction false} NothingToClean(text: seq<byte>)
    requires forall i :: 0 <= i < |text| ==> !IsAsciiWhitespace(text[i])
    ensures Clean(text) == text
  {
    if text != [] {
      NothingToClean(text[1..]);
    }
  }

  /** The encoding consists of visible ASCII characters other than quotation marks and backslashes. */
  lemma {:induction false} EncodingIsText(input: seq<byte>)
    ensures input != [] ==> EncodeBytes(input) != []
    ensures forall i :: 0 <= i < |EncodeBytes(input)| ==>
              43 <= EncodeBytes(input)[i] < 123 && EncodeBytes(input)[i] != 92
    decreases |input|
  {
    if input != [] {
      EncodingIsText(input[if |input| < 3 then |input| else 3..]);
      hide Bits24;
    }
  }

  /** An encoding is no shorter than what it encodes. */
  lemma {:induction false} EncodingIsLonger(input: seq<byte>)
    ensures |EncodeBytes(input)| >= |input|
    decreases |input|
  {
    if input != [] {
      EncodingIsLonger(input[if |input| < 3 then |input| else 3..]);
      hide EncodeGroup;
    }
  }

  lemma DecodeEncoded(input: seq<byte>)
    ensures DecodeBytes(EncodeBytes(input)) == Success(input)
  {
    EncodingIsText(input);
    NothingToClean(EncodeBytes(input));
    DecodeEncodeWithWhitespace(input, EncodeBytes(input));
  }

  /** A group of two symbols and padding. */
  function Padded(a: Sextet, b: Sextet): (g: seq<byte>)
    ensures |g| == 4 && forall i :: 0 <= i < 4 ==> !IsAsciiWhitespace(g[i])
  {
    [Symbol(a), Symbol(b), PAD, PAD]
  }

  lemma PaddedDecodes(a: Sextet, b: Sextet)
    ensures DecodeGroup(Padded(a, b)) == Success([a * 4 + b / 16])
    ensures Clean(Padded(a, b)) == Padded(a, b)
  {
    ReadSymbolsAndPadding(a, b, 0, 0);
    NothingToClean(Padded(a, b));
    hide ReadGroup, Symbol, Clean;
    PaddedByte(a, b);
    assert GroupBytes([a, b, 0, 0], 2) == [Join(a, b, 0, 0) / 65536 % 256];
  }

  lemma PaddedByte(a: Sextet, b: Sextet)
    ensures Join(a, b, 0, 0) / 65536 % 256 == a * 4 + b / 16
  {
    var high: nat, low: nat := a * 4 + b / 16, b % 16 * 4096;
    assert Join(a, b, 0, 0) == high * 65536 + low;
    HighByte(high, low);
  }

  lemma HighByte(high: nat, low: nat)
    requires high < 256 && low < 65536
    ensures (high * 65536 + low) / 65536 % 256 == high
  {
  }

  // ---- which texts are encodings

  lemma SymbolOfValue(b: byte)
    requires ValueOf(b).Some?
    ensures Symbol(ValueOf(b).value) == b
  {
  }

  lemma SymbolIsInjective(a: Sextet, b: Sextet)
    ensures Symbol(a) == Symbol(b) <==> a == b
  {
    ValueOfSymbol(a);
    ValueOfSymbol(b);
  }

  /** Reading a group symbol by symbol. */
  lemma ReadFour(g: seq<byte>)
    requires |g| == 4
    ensures ReadGroup(g[..1]) == ReadSymbol(Group([], 0), g[0])
    ensures ReadGroup(g[..2]) == Then(ReadGroup(g[..1]), g[1])
    ensures ReadGroup(g[..3]) == Then(ReadGroup(g[..2]), g[2])
    ensures ReadGroup(g) == Then(ReadGroup(g[..3]), g[3])
  {
    hide ReadSymbol;
    assert g[..1][..0] == [] && g[..2][..1] == g[..1] && g[..3][..2] == g[..2];
  }

  function Then(r: Result<Group, Base64Error>, b: byte): Result<Group, Base64Error> {
    match r
    case Failure(e) => Failure(e)
    case Success(g) => ReadSymbol(g, b)
  }

  /** The value of a symbol, zero for anything else. */
  function SextetAt(g: seq<byte>, i: nat): Sextet
    requires i < |g|
  {
    if ValueOf(g[i]).Some? then ValueOf(g[i]).value else 0
  }

  /** A group that decodes is two symbols, then symbols or padding. */
  lemma DecodableGroup(g: seq<byte>)
    requires |g| == 4 && DecodeGroup(g).Success?
    ensures g[0] == Symbol(SextetAt(g, 0)) && g[1] == Symbol(SextetAt(g, 1))
    ensures g[2] == if g[2] == PAD then PAD else Symbol(SextetAt(g, 2))
    ensures g[3] == if g[3] == PAD then PAD else Symbol(SextetAt(g, 3))
    ensures g[2] == PAD ==> g[3] == PAD
  {
    ReadFour(g);
    hide ReadGroup, Symbol, ValueOf, GroupBytes;
    forall i | 0 <= i < 4 && ValueOf(g[i]).Some? ensures g[i] == Symbol(SextetAt(g, i)) {
      SymbolOfValue(g[i]);
    }
  }

  /** The bits of the last symbol before the padding that no byte takes. */
  function LeftoverBits(g: seq<byte>): nat
    requires |g| == 4
  {
    if g[2] == PAD then SextetAt(g, 1) % 16 else if g[3] == PAD then SextetAt(g, 2) % 4 else 0
  }

  // The bytes that sextets stand for.

  function Byte0(a: Sextet, b: Sextet): byte {
    a * 4 + b / 16
  }

  function Byte1(b: Sextet, c: Sextet): byte {
    b % 16 * 16 + c / 4
  }

  function Byte2(c: Sextet, d: Sextet): byte {
    c % 4 * 64 + d
  }

  lemma BytesOfSextets(a: Sextet, b: Sextet, c: Sextet, d: Sextet)
    ensures var n := Join(a, b, c, d);
            n / 65536 % 256 == Byte0(a, b) && n / 256 % 256 == Byte1(b, c) && n % 256 == Byte2(c, d)
  {
    BytesOfGroup(a * 4 + b / 16, b % 16 * 16 + c / 4, c % 4 * 64 + d);
    assert Join(a, b, c, d) == Bits24(a * 4 + b / 16, b % 16 * 16 + c / 4, c % 4 * 64 + d);
  }

  lemma GroupBytesAre(a: Sextet, b: Sextet, c: Sextet, d: Sextet)
    ensures GroupBytes([a, b, c, d], 0) == [Byte0(a, b), Byte1(b, c), Byte2(c, d)]
    ensures GroupBytes([a, b, c, d], 1) == [Byte0(a, b), Byte1(b, c)]
    ensures GroupBytes([a, b, c, d], 2) == [Byte0(a, b)]
  {
    BytesOfSextets(a, b, c, d);
    hide Join, Byte0, Byte1, Byte2;
  }

  lemma GroupDecodes(a: Sextet, b: Sextet, c: Sextet, d: Sextet)
    ensures DecodeGroup([Symbol(a), Symbol(b), Symbol(c), Symbol(d)]) ==
              Success([Byte0(a, b), Byte1(b, c), Byte2(c, d)])
    ensures DecodeGroup([Symbol(a), Symbol(b), Symbol(c), PAD]) == Success([Byte0(a, b), Byte1(b, c)])
    ensures DecodeGroup([Symbol(a), Symbol(b), PAD, PAD]) == Success([Byte0(a, b)])
  {
    hide ReadGroup, Symbol, GroupBytes, Byte0, Byte1, Byte2;
    ReadSymbolsAndPadding(a, b, c, d);
    GroupBytesAre(a, b, c, d);
    GroupBytesAre(a, b, c, 0);
    GroupBytesAre(a, b, 0, 0);
  }

  // The sextets without the bits that padding leaves over.

  function Upper2(v: Sextet): (r: Sextet)
    ensures r == v <==> v % 16 == 0
  {
    v / 16 * 16
  }

  function Upper4(v: Sextet): (r: Sextet)
    ensures r == v <==> v % 4 == 0
  {
    v / 4 * 4
  }

  lemma OneByteEncodes(a: Sextet, b: Sextet)
    ensures EncodeGroup([Byte0(a, b)]) == [Symbol(a), Symbol(Upper2(b)), PAD, PAD]
  {
    var x := Byte0(a, b);
    assert x / 4 == a && x % 4 * 16 == Upper2(b);
    hide Symbol, Bits24, Join, EncodeGroup, Byte0, Upper2;
    EncodedGroup([x]);
  }

  lemma TwoBytesEncode(a: Sextet, b: Sextet, c: Sextet)
    ensures EncodeGroup([Byte0(a, b), Byte1(b, c)]) == [Symbol(a), Symbol(b), Symbol(Upper4(c)), PAD]
  {
    var x, y := Byte0(a, b), Byte1(b, c);
    assert x / 4 == a && x % 4 * 16 + y / 16 == b && y % 16 * 4 == Upper4(c);
    hide Symbol, Bits24, Join, EncodeGroup, Byte0, Byte1, Upper4;
    EncodedGroup([x, y]);
  }

  lemma ThreeBytesEncode(a: Sextet, b: Sextet, c: Sextet, d: Sextet)
    ensures EncodeGroup([Byte0(a, b), Byte1(b, c), Byte2(c, d)]) == [Symbol(a), Symbol(b), Symbol(c), Symbol(d)]
  {
    var x, y, z := Byte0(a, b), Byte1(b, c), Byte2(c, d);
    assert x / 4 == a && x % 4 * 16 + y / 16 == b;
    assert y % 16 * 4 + z / 64 == c && z % 64 == d;
    hide Symbol, Bits24, Join, EncodeGroup, Byte0, Byte1, Byte2;
    EncodedGroup([x, y, z]);
  }

  /** One byte less for each padding; encoding them gives the group back just when no bit is left over. */
  lemma GroupIsEncodingIff(g: seq<byte>)
    requires |g| == 4 && DecodeGroup(g).Success?
    ensures var b := DecodeGroup(g).value;
            && |b| == (if g[2] == PAD then 1 else if g[3] == PAD then 2 else 3)
            && (EncodeGroup(b) == g <==> LeftoverBits(g) == 0)
  {
    DecodableGroup(g);
    hide DecodeGroup, EncodeGroup, Symbol, ValueOf, SextetAt, Byte0, Byte1, Byte2, Upper2, Upper4;
    var a, b, c, d := SextetAt(g, 0), SextetAt(g, 1), SextetAt(g, 2), SextetAt(g, 3);
    GroupDecodes(a, b, c, d);
    if g[2] == PAD {
      assert g == [Symbol(a), Symbol(b), PAD, PAD];
      OneByteEncodes(a, b);
      SymbolIsInjective(Upper2(b), b);
    } else if g[3] == PAD {
      assert g == [Symbol(a), Symbol(b), Symbol(c), PAD];
      TwoBytesEncode(a, b, c);
      SymbolIsInjective(Upper4(c), c);
    } else {
      ThreeBytesEncode(a, b, c, d);
      assert g == [Symbol(a), Symbol(b), Symbol(c), Symbol(d)];
    }
  }

  /** Padding in the last group only, and no bits left over there. */
  predicate IsCanonical(clean: seq<byte>) {
    && (forall i :: 0 <= i < |clean| - 4 ==> clean[i] != PAD)
    && (|clean| >= 4 ==> LeftoverBits(clean[|clean| - 4..]) == 0)
  }

  lemma CanonicalNext(clean: seq<byte>)
    requires |clean| >= 8
    ensures IsCanonical(clean) <==> IsCanonical(clean[4..]) && forall i :: 0 <= i < 4 ==> clean[i] != PAD
  {
    var rest := clean[4..];
    assert rest[|rest| - 4..] == clean[|clean| - 4..];
    assert forall i :: 0 <= i < |rest| ==> rest[i] == clean[i + 4];
    assert forall i :: 4 <= i < |clean| ==> clean[i] == rest[i - 4];
  }

  lemma EncodeThree(first: seq<byte>, rest: seq<byte>)
    requires |first| == 3
    ensures EncodeBytes(first + rest) == EncodeGroup(first) + EncodeBytes(rest)
  {
    hide EncodeGroup;
    assert (first + rest)[..3] == first && (first + rest)[3..] == rest;
  }

  /** An encoding of several groups has no padding in the first. */
  lemma FirstGroupIsFull(input: seq<byte>)
    ensures |EncodeBytes(input)| > 4 ==> EncodeBytes(input)[3] != PAD
  {
    if |input| >= 3 {
      assert EncodeGroup(input[..3])[3] != PAD;
    } else if input != [] {
      assert EncodeBytes(input[|input|..]) == [];
    }
  }

  lemma SameParts(a: seq<byte>, b: seq<byte>, c: seq<byte>, n: nat)
    requires |a| == n <= |c| && a == c[..n]
    ensures a + b == c <==> b == c[n..]
  {
    if a + b == c {
      assert b == (a + b)[n..];
    }
  }

  /** A first group without padding is taken off on both sides. */
  lemma FullGroupNext(clean: seq<byte>)
    requires |clean| >= 8 && DecodeGroups(clean).Success? && clean[3] != PAD
    ensures EncodeBytes(DecodeGroups(clean).value) == clean <==>
              EncodeBytes(DecodeGroups(clean[4..]).value) == clean[4..]
    ensures forall i :: 0 <= i < 4 ==> clean[i] != PAD
  {
    hide EncodeGroup, EncodeBytes, DecodeGroup, DecodeGroups, LeftoverBits, Symbol, SextetAt;
    RestDecodes(clean);
    var g, rest := clean[..4], DecodeGroups(clean[4..]).value;
    DecodableGroup(g);
    GroupIsEncodingIff(g);
    NoPaddingNoLeftover(g);
    EncodeThree(DecodeGroup(g).value, rest);
    SameParts(EncodeGroup(DecodeGroup(g).value), EncodeBytes(rest), clean, 4);
  }

  lemma LastGroup(clean: seq<byte>)
    requires |clean| == 4 && DecodeGroups(clean).Success?
    ensures EncodeBytes(DecodeGroups(clean).value) == clean <==> IsCanonical(clean)
  {
    assert clean[..4] == clean == clean[0..] && clean[4..] == [];
    hide DecodeGroup, EncodeGroup, EncodeBytes, LeftoverBits;
    DecodeOneGroup(clean);
    GroupIsEncodingIff(clean);
    EncodeOneGroup(DecodeGroup(clean).value);
  }

  lemma RestDecodes(clean: seq<byte>)
    requires |clean| >= 4 && DecodeGroups(clean).Success?
    ensures DecodeGroup(clean[..4]).Success? && DecodeGroups(clean[4..]).Success?
    ensures DecodeGroups(clean).value == DecodeGroup(clean[..4]).value + DecodeGroups(clean[4..]).value
  {
    hide DecodeGroup;
  }

  lemma FirstGroup(clean: seq<byte>)
    requires |clean| >= 8 && DecodeGroups(clean).Success?
    requires EncodeBytes(DecodeGroups(clean[4..]).value) == clean[4..] <==> IsCanonical(clean[4..])
    ensures EncodeBytes(DecodeGroups(clean).value) == clean <==> IsCanonical(clean)
  {
    hide EncodeBytes, DecodeGroups, IsCanonical;
    CanonicalNext(clean);
    FirstGroupIsFull(DecodeGroups(clean).value);
    if clean[3] != PAD {
      FullGroupNext(clean);
    }
  }

  lemma {:induction false} GroupsAreEncodingIff(clean: seq<byte>, groups: nat)
    requires |clean| == 4 * groups && DecodeGroups(clean).Success?
    ensures EncodeBytes(DecodeGroups(clean).value) == clean <==> IsCanonical(clean)
    decreases groups
  {
    hide EncodeBytes, DecodeGroups, DecodeGroup, IsCanonical;
    if groups == 0 {
      NoGroups();
    } else if groups == 1 {
      LastGroup(clean);
    } else {
      RestDecodes(clean);
      GroupsAreEncodingIff(clean[4..], groups - 1);
      FirstGroup(clean);
    }
  }

  lemma NoGroups()
    ensures DecodeGroups([]) == Success([]) && EncodeBytes([]) == [] && IsCanonical([])
  {
  }

  lemma NoPaddingNoLeftover(g: seq<byte>)
    requires |g| == 4 && g[2] != PAD && g[3] != PAD
    ensures LeftoverBits(g) == 0
  {
  }

  lemma EncodeOneGroup(b: seq<byte>)
    requires 1 <= |b| <= 3
    ensures EncodeBytes(b) == EncodeGroup(b)
  {
    hide EncodeGroup;
    assert b[..|b|] == b && b[|b|..] == [];
    assert EncodeGroup(b) + [] == EncodeGroup(b);
  }

  /**
   * A text that decodes is, white space aside, the encoding of its bytes exactly
   * when only its last group is padded and the bits that padding leaves over are
   * zero. So decoding is strict on those texts alone.
   */
  lemma IsEncodingIff(text: seq<byte>)
    requires DecodeBytes(text).Success?
    ensures EncodeBytes(DecodeBytes(text).value) == Clean(text) <==> IsCanonical(Clean(text))
  {
    GroupsAreEncodingIff(Clean(text), |Clean(text)| / 4);
  }

  /** For example, `QQ==` and `QR==` decode alike: the bits that padding leaves over are ignored. */
  lemma LeftoverBitsAreIgnored(a: Sextet, b: Sextet, c: Sextet)
    requires b / 16 == c / 16
    ensures DecodeBytes(Padded(a, b)) == DecodeBytes(Padded(a, c)) == Success([a * 4 + b / 16])
    ensures IsCanonical(Padded(a, b)) <==> b % 16 == 0
  {
    PaddedDecodes(a, b);
    PaddedDecodes(a, c);
    ValueOfSymbol(b);
    assert Padded(a, b)[0..] == Padded(a, b);
    hide DecodeGroup, DecodeGroups, Clean, Padded;
    DecodeOneGroup(Padded(a, b));
    DecodeOneGroup(Padded(a, c));
  }

  /** And padding may end any group: whatever follows is decoded as if it were not there. */
  lemma PaddingMayEndAnyGroup(a: Sextet, b: Sextet, rest: seq<byte>)
    ensures DecodeBytes(Padded(a, b) + rest) ==
              if |Clean(rest)| % 4 != 0 then Failure(BadLength) else Prefixed([a * 4 + b / 16], DecodeBytes(rest))
    ensures Clean(Padded(a, b) + rest) == Padded(a, b) + Clean(rest)
    ensures |Clean(rest)| >= 4 ==> !IsCanonical(Padded(a, b) + Clean(rest))
  {
    hide DecodeGroup, DecodeGroups, Clean, IsAsciiWhitespace, LeftoverBits, Symbol;
    var g := Padded(a, b);
    PaddedDecodes(a, b);
    assert (4 + |Clean(rest)|) % 4 == |Clean(rest)| % 4;
    CleanAppend(g, rest);
    DecodeTwoGroups(g, Clean(rest));
    assert (g + Clean(rest))[3] == PAD;
  }

  lemma {:induction false} CleanAppend(a: seq<byte>, b: seq<byte>)
    ensures Clean(a + b) == Clean(a) + Clean(b)
  {
    if a == [] {
      assert a + b == b;
    } else {
      assert (a + b)[1..] == a[1..] + b;
      CleanAppend(a[1..], b);
    }
  }

  /** A byte that makes no difference, wherever it stands. */
  ghost predicate IsIgnored(b: byte) {
    forall front, back :: DecodeBytes(front + [b] + back) == DecodeBytes(front + back)
  }

  /** Exactly the white space of ASCII is ignored: space, tab, line feed, form feed and carriage return. */
  lemma WhitespaceIsIgnoredIff(b: byte)
    ensures IsIgnored(b) <==> b == 0x20 || b == 0x09 || b == 0x0A || b == 0x0C || b == 0x0D
  {
    CleanOne(b);
    if b == 0x20 || b == 0x09 || b == 0x0A || b == 0x0C || b == 0x0D {
      forall front, back ensures DecodeBytes(front + [b] + back) == DecodeBytes(front + back) {
        CleanAppend(front + [b], back);
        CleanAppend(front, [b]);
        CleanAppend(front, back);
        hide Clean;
        assert Clean(front) + [] == Clean(front);
      }
    } else {
      var none: seq<byte> := [];
      assert none + [b] + none == [b] && none + none == none;
      assert DecodeBytes([b]) == Failure(BadLength) && DecodeBytes(none) == Success([]);
      assert DecodeBytes(none + [b] + none) != DecodeBytes(none + none);
    }
  }

  lemma CleanOne(b: byte)
    ensures Clean([b]) == if b == 0x20 || b == 0x09 || b == 0x0A || b == 0x0C || b == 0x0D then [] else [b]
  {
    assert [b][1..] == [];
  }

  lemma DecodeOneGroup(g: seq<byte>)
    requires |g| == 4 && DecodeGroup(g).Success?
    ensures DecodeGroups(g) == DecodeGroup(g)
  {
    assert g[..4] == g && g[4..] == [];
    assert DecodeGroup(g).value + [] == DecodeGroup(g).value;
  }

  lemma DecodeTwoGroups(g: seq<byte>, h: seq<byte>)
    requires |g| == 4 && DecodeGroup(g).Success?
    ensures DecodeGroups(g + h) == Prefixed(DecodeGroup(g).value, DecodeGroups(h))
  {
    assert (g + h)[..4] == g && (g + h)[4..] == h;
  }
}

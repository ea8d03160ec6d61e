/**
 * Wrapping the command lines of Windows Terminal profiles so that the shell runs
 * under the capture program, and unwrapping them again. The original command line
 * travels inside the wrapped one, in base64.
 */
module TerminalProfiles {
  import opened Wrappers
  import opened Sequences
  import opened Utf8
  import Base64
  import opened WindowsArgs

  const MARKER: string := "--cmdline-b64"
  const FOLLOW: string := "--follow-console-size"

  // ---- tokens

  /** Length of the run of characters at the start of `s` that are, or are not, white space. */
  function RunLength(s: string, white: bool): (n: nat)
    ensures n <= |s|
    ensures forall i :: 0 <= i < n ==> IsWhitespace(s[i]) == white
    ensures n < |s| ==> IsWhitespace(s[n]) != white
  {
    if s == "" || IsWhitespace(s[0]) != white then 0 else 1 + RunLength(s[1..], white)
  }

  /** `s.split_whitespace()` */
  function Tokens(s: string): seq<string>
    decreases |s|
  {
    if s == "" then []
    else if IsWhitespace(s[0]) then Tokens(s[1..])
    else
      var n := RunLength(s, false);
      [s[..n]] + Tokens(s[n..])
  }

  predicate IsWord(s: string) {
    s != "" && forall i :: 0 <= i < |s| ==> !IsWhitespace(s[i])
  }

  lemma {:induction false} RunOfWord(word: string, rest: string)
    requires forall i :: 0 <= i < |word| ==> !IsWhitespace(word[i])
    requires rest == "" || IsWhitespace(rest[0])
    ensures RunLength(word + rest, false) == |word|
  {
    if word == "" {
      assert word + rest == rest;
    } else {
      assert (word + rest)[1..] == word[1..] + rest;
      RunOfWord(word[1..], rest);
    }
  }

  lemma TokensOfWord(word: string)
    requires IsWord(word)
    ensures Tokens(word) == [word]
  {
    RunOfWord(word, "");
    assert word + "" == word;
    assert word[..|word|] == word && word[|word|..] == "";
  }

  lemma TokensOfRun(s: string, n: nat)
    requires s != "" && !IsWhitespace(s[0]) && n == RunLength(s, false)
    ensures n > 0 && Tokens(s) == [s[..n]] + Tokens(s[n..])
  {
  }

  lemma TokensOfWhite(s: string)
    requires s != "" && IsWhitespace(s[0])
    ensures Tokens(s) == Tokens(s[1..])
  {
  }

  lemma TokensOfNothing()
    ensures Tokens("") == [] && IsWhitespace(' ')
  {
  }

  /** Texts separated by a space have the tokens of both. */
  lemma {:induction false} TokensAppend(a: string, b: string)
    ensures Tokens(a + " " + b) == Tokens(a) + Tokens(b)
    decreases |a|
  {
    hide Tokens, RunLength, IsWhitespace;
    TokensOfNothing();
    var s := a + " " + b;
    if a == "" {
      TokensOfWhite(s);
      assert s[1..] == b;
    } else if IsWhitespace(a[0]) {
      TokensOfWhite(s);
      TokensOfWhite(a);
      assert s[1..] == a[1..] + " " + b;
      TokensAppend(a[1..], b);
    } else {
      var n := RunLength(a, false);
      assert s == a[..n] + (a[n..] + " " + b);
      RunOfWord(a[..n], a[n..] + " " + b);
      assert s[..n] == a[..n] && s[n..] == a[n..] + " " + b;
      TokensOfRun(a, n);
      TokensAppend(a[n..], b);
      TokensOfRun(s, n);
      assert [a[..n]] + (Tokens(a[n..]) + Tokens(b)) == [a[..n]] + Tokens(a[n..]) + Tokens(b);
    }
  }

  // ---- finding the original in a wrapped command line

  predicate PartAt(s: string, part: string, i: nat) {
    i + |part| <= |s| && s[i..i + |part|] == part
  }

  predicate Contains(s: string, part: string) {
    exists i: nat :: i <= |s| && PartAt(s, part, i)
  }

  /** `trim_matches('"')` */
  function TrimMarks(s: string): string
    decreases |s|
  {
    if s == "" then ""
    else if s[0] == '"' then TrimMarks(s[1..])
    else if s[|s| - 1] == '"' then TrimMarks(s[..|s| - 1])
    else s
  }

  function DecodeText(token: string): Option<string> {
    match Base64.DecodeBytes(Encode(TrimMarks(token)))
    case Failure(_) => None
    case Success(bytes) => Decode(bytes)
  }

  /** The token after the first marker, decoded. */
  function FromTokens(tokens: seq<string>): Option<string> {
    if tokens == [] then None
    else if tokens[0] == MARKER then if |tokens| == 1 then None else DecodeText(tokens[1])
    else FromTokens(tokens[1..])
  }

  function Extract(commandline: string): Option<string> {
    if !Contains(commandline, "terminal-shim") && !Contains(commandline, "capture-shell")
       && !Contains(commandline, "vibe-terminal") then None
    else FromTokens(Tokens(commandline))
  }

  /** Only command lines that name one of the three capture programs are looked into. */
  lemma OnlyCapturesAreRead(front: string, back: string)
    ensures forall program :: program in ["terminal-shim", "capture-shell", "vibe-terminal"] ==>
              Extract(front + program + back) == FromTokens(Tokens(front + program + back))
  {
    hide Tokens, FromTokens;
    forall program | program in ["terminal-shim", "capture-shell", "vibe-terminal"]
      ensures Contains(front + program + back, program)
    {
      ContainsPart(front, program, back);
    }
    hide Contains;
  }

  /** The loop over the tokens. */
  method ExtractWrappedTerminalCmdline(commandline: string) returns (r: Option<string>)
    ensures r == Extract(commandline)
  {
    if !Contains(commandline, "terminal-shim") && !Contains(commandline, "capture-shell")
       && !Contains(commandline, "vibe-terminal") {
      return None;
    }
    var parts := Tokens(commandline);
    assert parts[0..] == parts;
    for i := 0 to |parts|
      invariant FromTokens(parts) == FromTokens(parts[i..])
    {
      if parts[i] == MARKER {
        if i + 1 == |parts| {
          return None;
        }
        return DecodeText(parts[i + 1]);
      }
      assert parts[i..][1..] == parts[i + 1..];
    }
    r := None;
  }

  // ---- wrapping one command line

  function AsciiText(bytes: seq<byte>): (s: string)
    ensures |s| == |bytes|
  {
    seq(|bytes|, i requires 0 <= i < |bytes| => bytes[i] as char)
  }

  /** The parts, separated by single spaces. */
  function Spaced(parts: seq<string>): string
    requires parts != []
  {
    if |parts| == 1 then parts[0] else parts[0] + " " + Spaced(parts[1..])
  }

  /** Everything before the marker. */
  function Front(exe: string, addr: string, name: string): (parts: seq<string>)
    ensures |parts| == 7 && parts[1] == "terminal-shim" && parts[6] == FOLLOW
  {
    [Quote(exe), "terminal-shim", "--daemon", Quote(addr), "--name", Quote(name), FOLLOW]
  }

  function Build(exe: string, addr: string, name: string, original: string): string {
    Spaced(Front(exe, addr, name) + [MARKER, AsciiText(Base64.EncodeBytes(Encode(original)))])
  }

  function TokensOfAll(parts: seq<string>): seq<string> {
    if parts == [] then [] else Tokens(parts[0]) + TokensOfAll(parts[1..])
  }

  lemma {:induction false} TokensOfSpaced(parts: seq<string>)
    requires parts != []
    ensures Tokens(Spaced(parts)) == TokensOfAll(parts)
  {
    if |parts| == 1 {
      assert parts[1..] == [] && Tokens(parts[0]) + [] == Tokens(parts[0]);
    } else {
      TokensAppend(parts[0], Spaced(parts[1..]));
      TokensOfSpaced(parts[1..]);
    }
  }

  lemma {:induction false} TokensOfAllAppend(a: seq<string>, b: seq<string>)
    ensures TokensOfAll(a + b) == TokensOfAll(a) + TokensOfAll(b)
  {
    if a == [] {
      assert a + b == b;
    } else {
      assert (a + b)[1..] == a[1..] + b;
      TokensOfAllAppend(a[1..], b);
    }
  }

  lemma {:induction false} FromTokensAppend(front: seq<string>, rest: seq<string>)
    ensures MARKER !in front ==> FromTokens(front + rest) == FromTokens(rest)
    ensures MARKER in front && front[|front| - 1] != MARKER ==> FromTokens(front + rest) == FromTokens(front)
  {
    if front == [] {
      assert front + rest == rest;
    } else {
      assert (front + rest)[1..] == front[1..] + rest;
      FromTokensAppend(front[1..], rest);
    }
  }

  lemma {:induction false} EncodeAscii(bytes: seq<byte>)
    requires forall i :: 0 <= i < |bytes| ==> bytes[i] < 128
    ensures Encode(AsciiText(bytes)) == bytes
  {
    if bytes != [] {
      assert AsciiText(bytes) == [bytes[0] as char] + AsciiText(bytes[1..]);
      EncodeAscii(bytes[1..]);
      EncodeCons(bytes[0] as char, AsciiText(bytes[1..]));
    }
  }

  /** The base64 text is one word without quotation marks, and decodes to the original. */
  lemma EncodedIsWord(original: string)
    requires original != ""
    ensures var text := AsciiText(Base64.EncodeBytes(Encode(original)));
            IsWord(text) && TrimMarks(text) == text && DecodeText(text) == Some(original)
  {
    var bytes := Encode(original);
    var code := Base64.EncodeBytes(bytes);
    var text := AsciiText(code);
    Base64.EncodingIsText(bytes);
    Base64.DecodeEncoded(bytes);
    DecodeEncode(original);
    hide Base64.EncodeBytes, Base64.DecodeBytes, Decode, Encode;
    EncodeAscii(code);
    assert original != "" ==> bytes != [] by {
      if bytes == [] {
        DecodeNothing();
      }
    }
    assert forall i :: 0 <= i < |text| ==> 43 <= text[i] as int < 123;
  }

  lemma DecodeNothing()
    ensures Decode([]) == Some("")
  {
  }

  lemma ContainsPart(a: string, part: string, b: string)
    ensures Contains(a + part + b, part)
  {
    assert PartAt(a + part + b, part, |a|);
  }

  /**
   * What is read back from a wrapped command line: the original, unless the
   * program path, the address or the profile name already contains the marker as
   * a word of its own; then whatever follows that.
   */
  lemma ExtractWrapped(exe: string, addr: string, name: string, original: string)
    requires original != ""
    ensures var front := TokensOfAll(Front(exe, addr, name));
            Extract(Build(exe, addr, name, original)) == if MARKER in front then FromTokens(front) else Some(original)
  {
    hide Tokens, Spaced, DecodeText, Base64.EncodeBytes, Encode, Contains, Front, AsciiText, TrimMarks, IsWord,
         Quote;
    var front, text := Front(exe, addr, name), AsciiText(Base64.EncodeBytes(Encode(original)));
    EncodedIsWord(original);
    ShimIsNamed(exe, addr, name, [MARKER, text]);
    TokensOfSpaced(front + [MARKER, text]);
    TokensOfAllAppend(front, [MARKER, text]);
    MarkedTokens(text);
    FrontEndsInOption(exe, addr, name);
    FromTokensAppend(TokensOfAll(front), [MARKER, text]);
  }

  /** So the original is found exactly when no earlier word is the marker, or what follows that decodes to it. */
  lemma FindsOriginalIff(exe: string, addr: string, name: string, original: string)
    requires original != ""
    ensures var front := TokensOfAll(Front(exe, addr, name));
            Extract(Build(exe, addr, name, original)) == Some(original) <==>
              MARKER !in front || FromTokens(front) == Some(original)
  {
    ExtractWrapped(exe, addr, name, original);
    hide Extract, Build, TokensOfAll, Front;
  }

  lemma ShimIsNamed(exe: string, addr: string, name: string, more: seq<string>)
    requires more != []
    ensures Contains(Spaced(Front(exe, addr, name) + more), "terminal-shim")
  {
    var parts := Front(exe, addr, name) + more;
    hide Front, Contains, Quote;
    SecondIsContained(parts);
  }

  lemma SecondIsContained(parts: seq<string>)
    requires |parts| > 2
    ensures Contains(Spaced(parts), parts[1])
  {
    SpacedCons(parts);
    SpacedCons(parts[1..]);
    hide Spaced, Contains;
    ContainsInside(parts[0], parts[1], Spaced(parts[1..][1..]));
  }

  lemma ContainsInside(a: string, part: string, b: string)
    ensures Contains(a + " " + (part + " " + b), part)
  {
    hide Contains;
    ContainsPart(a + " ", part, " " + b);
    Shift(a, part, b);
  }

  lemma Shift(a: string, part: string, b: string)
    ensures a + " " + (part + " " + b) == a + " " + part + (" " + b)
  {
  }

  lemma SpacedCons(parts: seq<string>)
    requires |parts| > 1
    ensures Spaced(parts) == parts[0] + " " + Spaced(parts[1..])
  {
  }

  lemma OptionsAreWords()
    ensures IsWord(MARKER) && IsWord(FOLLOW) && MARKER != FOLLOW
  {
    assert |MARKER| != |FOLLOW|;
  }

  lemma MarkedTokens(text: string)
    requires IsWord(text)
    ensures TokensOfAll([MARKER, text]) == [MARKER, text]
  {
    OptionsAreWords();
    hide Tokens, IsWord;
    TokensOfWord(MARKER);
    TokensOfWord(text);
    assert [MARKER, text][1..] == [text] && [text][1..] == [];
    assert TokensOfAll([text]) == [text] + TokensOfAll([]);
  }

  lemma FrontEndsInOption(exe: string, addr: string, name: string)
    ensures var tokens := TokensOfAll(Front(exe, addr, name));
            tokens != [] && tokens[|tokens| - 1] != MARKER
  {
    OptionsAreWords();
    hide Tokens, IsWord, Front, Quote;
    var parts := Front(exe, addr, name);
    TokensOfAllAppend(parts[..6], [FOLLOW]);
    assert parts[..6] + [FOLLOW] == parts;
    TokensOfWord(FOLLOW);
    assert [FOLLOW][1..] == [];
  }

  // ---- profiles

  /** One entry of the profile list; only objects are looked at, and only these fields. */
  datatype Profile =
    | NotAnObject
    | Profile(hidden: bool, name: Option<string>, source: Option<string>, commandline: Option<string>)

  function Trim(s: string): string
    decreases |s|
  {
    if s == "" then ""
    else if IsWhitespace(s[0]) then Trim(s[1..])
    else if IsWhitespace(s[|s| - 1]) then Trim(s[..|s| - 1])
    else s
  }

  function ToAsciiLowercase(s: string): string {
    seq(|s|, i requires 0 <= i < |s| => if 'A' <= s[i] <= 'Z' then (s[i] as int + 32) as char else s[i])
  }

  function OrElse(o: Option<string>, default: string): string {
    match o
    case Some(s) => s
    case None => default
  }

  /** The shell a profile without a command line starts, as far as its name and source tell. */
  function InferredCommandline(profileName: string, profileSource: string): Option<string> {
    var name, source := ToAsciiLowercase(profileName), ToAsciiLowercase(profileSource);
    if Contains(source, "wsl") || Contains(name, "ubuntu") || Contains(name, "debian") then
      if Trim(profileName) == "" then Some("wsl.exe") else Some("wsl.exe -d " + Quote(profileName))
    else if Contains(source, "powershellcore") || name == "powershell" || Contains(name, "powershell 7") then
      Some("pwsh.exe")
    else if Contains(source, "windowspowershell") || Contains(name, "windows powershell") then Some("powershell.exe")
    else if Contains(source, "visualstudio") && Contains(name, "powershell") then Some("powershell.exe")
    else if Contains(source, "cmd") || Contains(name, "command prompt") then Some("cmd.exe")
    else if Contains(name, "powershell") then Some("powershell.exe")
    else None
  }

  function ProfileCommandline(p: Profile): (r: Option<string>)
    requires p.Profile?
    ensures r.Some? ==> r.value != ""
  {
    if p.commandline.Some? && Trim(p.commandline.value) != "" then Some(Trim(p.commandline.value))
    else InferredCommandline(OrElse(p.name, ""), OrElse(p.source, ""))
  }

  /** What runs in the end: the wrapped command line if there is one, else the profile's own. */
  function Original(p: Profile): Option<string>
    requires p.Profile?
  {
    match ProfileCommandline(p)
    case None => None
    case Some(c) => Some(OrElse(Extract(c), c))
  }

  function DisplayName(p: Profile): string
    requires p.Profile?
  {
    OrElse(p.name, "Windows Terminal")
  }

  predicate Wrappable(p: Profile) {
    p.Profile? && !p.hidden && ProfileCommandline(p).Some?
  }

  function Wrapped(exe: string, addr: string, p: Profile): string
    requires Wrappable(p)
  {
    Build(exe, addr, "Terminal: " + DisplayName(p), Original(p).value)
  }

  function WrapOne(exe: string, addr: string, p: Profile): Profile {
    if Wrappable(p) then p.(commandline := Some(Wrapped(exe, addr, p))) else p
  }

  function UnwrapOne(p: Profile): Profile {
    if p.Profile? && p.commandline.Some? && Extract(p.commandline.value).Some?
    then p.(commandline := Extract(p.commandline.value)) else p
  }

  function Wrap(exe: string, addr: string): Profile -> Profile {
    (p: Profile) => WrapOne(exe, addr, p)
  }

  function Map(f: Profile -> Profile, ps: seq<Profile>): (r: seq<Profile>)
    ensures |r| == |ps|
    ensures forall i :: 0 <= i < |ps| ==> r[i] == f(ps[i])
  {
    seq(|ps|, i requires 0 <= i < |ps| => f(ps[i]))
  }

  function NameIfChanged(f: Profile -> Profile, p: Profile): seq<string> {
    if p.Profile? && f(p) != p then [DisplayName(p)] else []
  }

  /** The names of the profiles that `f` changes, in order. */
  function Changed(f: Profile -> Profile, ps: seq<Profile>): seq<string> {
    if ps == [] then [] else Changed(f, ps[..|ps| - 1]) + NameIfChanged(f, ps[|ps| - 1])
  }

  /** The names of the profiles that can be wrapped, in order. */
  function Supported(ps: seq<Profile>): seq<string> {
    if ps == [] then []
    else
      var last := ps[|ps| - 1];
      Supported(ps[..|ps| - 1]) + if Wrappable(last) then [DisplayName(last)] else []
  }

  lemma SupportedSnoc(ps: seq<Profile>, i: nat)
    requires i < |ps|
    ensures Supported(ps[..i + 1]) == Supported(ps[..i]) + if Wrappable(ps[i]) then [DisplayName(ps[i])] else []
  {
    assert ps[..i + 1][..i] == ps[..i];
  }

  lemma ChangedSnoc(f: Profile -> Profile, ps: seq<Profile>, i: nat)
    requires i < |ps|
    ensures Changed(f, ps[..i + 1]) == Changed(f, ps[..i]) + NameIfChanged(f, ps[i])
  {
    assert ps[..i + 1][..i] == ps[..i];
  }

  /** Wraps the profiles in place and reports the names of those it changed and of those it could wrap. */
  method WrapProfiles(profiles: array<Profile>, exe: string, addr: string)
    returns (changed: seq<string>, supported: seq<string>)
    modifies profiles
    ensures supported == Supported(old(profiles[..]))
    ensures profiles[..] == Map(Wrap(exe, addr), old(profiles[..]))
    ensures changed == Changed(Wrap(exe, addr), old(profiles[..]))
  {
    hide Wrapped, Map, Changed, Supported;
    changed, supported := [], [];
    ghost var before := profiles[..];
    ChangedNothing(Wrap(exe, addr), before);
    SupportedNothing(before);
    for i := 0 to profiles.Length
      invariant forall j :: 0 <= j < i ==> profiles[j] == Wrap(exe, addr)(before[j])
      invariant forall j :: i <= j < profiles.Length ==> profiles[j] == before[j]
      invariant changed == Changed(Wrap(exe, addr), before[..i])
      invariant supported == Supported(before[..i])
    {
      ChangedSnoc(Wrap(exe, addr), before, i);
      SupportedSnoc(before, i);
      var p := profiles[i];
      if p.Profile? && !p.hidden && ProfileCommandline(p).Some? {
        supported := supported + [DisplayName(p)];
        var wrapped := Wrapped(exe, addr, p);
        if p.commandline == Some(wrapped) {
          continue;
        }
        profiles[i] := p.(commandline := Some(wrapped));
        changed := changed + [DisplayName(p)];
      }
    }
    assert before[..profiles.Length] == before;
  }

  /** Unwraps the profiles in place and reports the names of those it had to touch. */
  method UnwrapProfiles(profiles: array<Profile>) returns (changed: seq<string>)
    modifies profiles
    ensures profiles[..] == Map(UnwrapOne, old(profiles[..]))
    ensures changed == Changed(UnwrapOne, old(profiles[..]))
  {
    hide Extract, Map, Changed;
    changed := [];
    ghost var before := profiles[..];
    ChangedNothing(UnwrapOne, before);
    for i := 0 to profiles.Length
      invariant forall j :: 0 <= j < i ==> profiles[j] == UnwrapOne(before[j])
      invariant forall j :: i <= j < profiles.Length ==> profiles[j] == before[j]
      invariant changed == Changed(UnwrapOne, before[..i])
    {
      ChangedSnoc(UnwrapOne, before, i);
      var p := profiles[i];
      if p.NotAnObject? || p.commandline.None? {
        continue;
      }
      var original := ExtractWrappedTerminalCmdline(p.commandline.value);
      if original.None? {
        continue;
      }
      WrappedIsLonger(p.commandline.value);
      profiles[i] := p.(commandline := original);
      changed := changed + [DisplayName(p)];
    }
    assert before[..profiles.Length] == before;
  }

  lemma SupportedNothing(ps: seq<Profile>)
    ensures Supported(ps[..0]) == []
  {
  }

  lemma ChangedNothing(f: Profile -> Profile, ps: seq<Profile>)
    ensures Changed(f, ps[..0]) == []
  {
  }

  // ---- a command line is never its own original

  /** Decoding never makes more bytes than it reads. */
  lemma {:induction false} DecodedIsShorter(clean: seq<byte>)
    requires Base64.DecodeGroups(clean).Success?
    ensures 4 * |Base64.DecodeGroups(clean).value| <= 3 * |clean|
  {
    if |clean| >= 4 {
      DecodedIsShorter(clean[4..]);
    }
  }

  lemma {:induction false} CleanIsShorter(text: seq<byte>)
    ensures |Base64.Clean(text)| <= |text|
  {
    if text != [] {
      CleanIsShorter(text[1..]);
    }
  }

  lemma {:induction false} TrimmedIsShorter(s: string)
    ensures |Encode(TrimMarks(s))| <= |Encode(s)|
    decreases |s|
  {
    if s != "" {
      var last := |s| - 1;
      if s[0] == '"' {
        TrimmedIsShorter(s[1..]);
      } else if s[last] == '"' {
        TrimmedIsShorter(s[..last]);
        EncodeAppend(s[..last], s[last..]);
        assert s[..last] + s[last..] == s;
      }
    }
  }

  lemma {:induction false} TokenIsShorter(s: string, token: string)
    requires token in Tokens(s)
    ensures |Encode(token)| <= |Encode(s)|
    decreases |s|
  {
    if IsWhitespace(s[0]) {
      TokenIsShorter(s[1..], token);
    } else {
      var n := RunLength(s, false);
      EncodeAppend(s[..n], s[n..]);
      assert s[..n] + s[n..] == s;
      if token != s[..n] {
        TokenIsShorter(s[n..], token);
      }
    }
  }

  lemma {:induction false} MarkedTokenExists(tokens: seq<string>)
    requires FromTokens(tokens).Some?
    ensures MARKER in tokens && exists token :: token in tokens && DecodeText(token) == FromTokens(tokens)
  {
    if tokens[0] == MARKER {
      assert tokens[1] in tokens;
    } else {
      MarkedTokenExists(tokens[1..]);
    }
  }

  lemma DecodedTextIsShorter(token: string)
    requires DecodeText(token).Some?
    ensures 4 * |Encode(DecodeText(token).value)| <= 3 * |Encode(token)|
  {
    var bytes := Encode(TrimMarks(token));
    TrimmedIsShorter(token);
    CleanIsShorter(bytes);
    hide Encode, Decode, Base64.DecodeGroups, Base64.Clean, TrimMarks;
    DecodedIsShorter(Base64.Clean(bytes));
    EncodeDecode(Base64.DecodeBytes(bytes).value);
  }

  lemma {:induction false} EncodeNothing(s: string)
    requires Encode(s) == []
    ensures s == ""
  {
  }

  lemma WrappedIsLonger(c: string)
    ensures Extract(c) != Some(c)
  {
    if Extract(c) == Some(c) {
      MarkedTokenExists(Tokens(c));
      var token :| token in Tokens(c) && DecodeText(token) == Some(c);
      TokenIsShorter(c, token);
      DecodedTextIsShorter(token);
      EncodeNothing(c);
    }
  }

  // ---- wrapping, unwrapping and wrapping again

  predicate IsSolid(s: string) {
    s != "" && !IsWhitespace(s[0]) && !IsWhitespace(s[|s| - 1])
  }

  lemma {:induction false} SpacedIsSolid(parts: seq<string>)
    requires parts != [] && parts[0] != "" && !IsWhitespace(parts[0][0]) && IsWord(parts[|parts| - 1])
    ensures IsSolid(Spaced(parts))
  {
    if |parts| == 1 {
      return;
    }
    LastOfSpaced(parts);
  }

  lemma {:induction false} LastOfSpaced(parts: seq<string>)
    requires parts != [] && parts[|parts| - 1] != ""
    ensures Spaced(parts) != "" && Spaced(parts)[|Spaced(parts)| - 1] == parts[|parts| - 1][|parts[|parts| - 1]| - 1]
  {
    if |parts| > 1 {
      LastOfSpaced(parts[1..]);
    }
  }

  lemma QuoteStartsSolid(value: string)
    ensures Quote(value) != "" && !IsWhitespace(Quote(value)[0])
  {
  }

  lemma BuildIsSolid(exe: string, addr: string, name: string, original: string)
    requires original != ""
    ensures var line := Build(exe, addr, name, original); IsSolid(line) && Trim(line) == line
  {
    QuoteStartsSolid(exe);
    EncodedIsWord(original);
    hide Spaced, Quote, Encode, Base64.EncodeBytes, DecodeText, AsciiText, TrimMarks;
    var parts := Front(exe, addr, name) + [MARKER, AsciiText(Base64.EncodeBytes(Encode(original)))];
    assert parts[0] == Quote(exe) && parts[|parts| - 1] == AsciiText(Base64.EncodeBytes(Encode(original)));
    SpacedIsSolid(parts);
  }

  /** No program path, address or profile name smuggles in the marker, and there is something to run. */
  predicate WrapsCleanly(exe: string, addr: string, p: Profile) {
    Wrappable(p) ==>
      && MARKER !in TokensOfAll(Front(exe, addr, "Terminal: " + DisplayName(p)))
      && Original(p) != Some("")
  }

  /** Wrapping changes what starts, not what runs in the end. */
  lemma WrapKeepsOriginal(exe: string, addr: string, p: Profile)
    requires Wrappable(p) && WrapsCleanly(exe, addr, p)
    ensures var q := WrapOne(exe, addr, p);
            && Wrappable(q) && DisplayName(q) == DisplayName(p)
            && Original(q) == Original(p) == Extract(q.commandline.value)
  {
    hide Build, Extract, InferredCommandline;
    var name := "Terminal: " + DisplayName(p);
    BuildIsSolid(exe, addr, name, Original(p).value);
    ExtractWrapped(exe, addr, name, Original(p).value);
  }

  /** Wrapping again, for any program and address, is wrapping the original profile. */
  lemma RewrapOne(exe: string, addr: string, exe2: string, addr2: string, p: Profile)
    requires WrapsCleanly(exe, addr, p)
    ensures WrapOne(exe2, addr2, WrapOne(exe, addr, p)) == WrapOne(exe2, addr2, p)
  {
    hide Build, Original, Extract, ProfileCommandline;
    if Wrappable(p) {
      WrapKeepsOriginal(exe, addr, p);
    }
  }

  /** Whether unwrapping gives back the profile: its command line was explicit, trimmed and not wrapped. */
  predicate IsRestorable(p: Profile) {
    p.Profile? ==>
      if Wrappable(p) then
        p.commandline.Some? && Trim(p.commandline.value) == p.commandline.value != ""
        && Extract(p.commandline.value).None?
      else p.commandline.None? || Extract(p.commandline.value).None?
  }

  /** Trimming takes white space off both ends, all of it and nothing else. */
  lemma {:induction false} TrimTrims(s: string) returns (front: string, back: string)
    ensures s == front + Trim(s) + back
    ensures forall i :: 0 <= i < |front| ==> IsWhitespace(front[i])
    ensures forall i :: 0 <= i < |back| ==> IsWhitespace(back[i])
    ensures Trim(s) != "" ==> !IsWhitespace(Trim(s)[0]) && !IsWhitespace(Trim(s)[|Trim(s)| - 1])
    decreases |s|
  {
    front, back := "", "";
    if s == "" {
    } else if IsWhitespace(s[0]) {
      var f, b := TrimTrims(s[1..]);
      front, back := [s[0]] + f, b;
    } else if IsWhitespace(s[|s| - 1]) {
      var f, b := TrimTrims(s[..|s| - 1]);
      front, back := f, b + [s[|s| - 1]];
    }
  }

  lemma {:induction false} TrimIsShorter(s: string)
    ensures |Trim(s)| <= |s| && |Encode(Trim(s))| <= |Encode(s)|
    decreases |s|
  {
    if s != "" {
      var last := |s| - 1;
      if IsWhitespace(s[0]) {
        TrimIsShorter(s[1..]);
      } else if IsWhitespace(s[last]) {
        TrimIsShorter(s[..last]);
        EncodeAppend(s[..last], s[last..]);
        assert s[..last] + s[last..] == s;
      }
    }
  }

  /** Nor is it what is found in its own trimmed form. */
  lemma TrimmedIsNotOriginal(c: string)
    ensures Extract(Trim(c)) != Some(c)
  {
    if Extract(Trim(c)) == Some(c) {
      MarkedTokenExists(Tokens(Trim(c)));
      var token :| token in Tokens(Trim(c)) && DecodeText(token) == Some(c);
      TokenIsShorter(Trim(c), token);
      TrimIsShorter(c);
      DecodedTextIsShorter(token);
      EncodeNothing(c);
    }
  }

  /** Unwrapping a wrapped profile leaves its original command line, spelled out. */
  lemma UnwrapWrapped(exe: string, addr: string, p: Profile)
    requires Wrappable(p) && WrapsCleanly(exe, addr, p)
    ensures UnwrapOne(WrapOne(exe, addr, p)) == p.(commandline := Original(p))
  {
    WrapKeepsOriginal(exe, addr, p);
    hide Build, Extract, ProfileCommandline;
  }

  // A blank command line is as good as none: the profile is wrapped by what its name says.

  lemma {:induction false} BlankIsWhite(s: string)
    requires Trim(s) == ""
    ensures forall i :: 0 <= i < |s| ==> IsWhitespace(s[i])
    decreases |s|
  {
    if s != "" {
      if IsWhitespace(s[0]) {
        BlankIsWhite(s[1..]);
      } else if IsWhitespace(s[|s| - 1]) {
        BlankIsWhite(s[..|s| - 1]);
      }
    }
  }

  lemma EscapedOne(value: string)
    requires value != "" && value[0] != '"' && value[0] != '\\'
    ensures Escaped(value) == [value[0]] + Escaped(value[1..])
  {
    assert Leading(value) == 0 && Repeat('\\', 0) == "";
    hide Escaped;
    assert "" + [value[0]] == [value[0]];
  }

  lemma {:induction false} EscapedAfter(prefix: string, value: string)
    requires forall i :: 0 <= i < |prefix| ==> prefix[i] != '"' && prefix[i] != '\\'
    ensures Escaped(prefix + value) == prefix + Escaped(value)
  {
    hide Escaped;
    if prefix == "" {
      assert prefix + value == value;
      assert prefix + Escaped(value) == Escaped(value);
    } else {
      assert (prefix + value)[1..] == prefix[1..] + value;
      EscapedOne(prefix + value);
      EscapedAfter(prefix[1..], value);
      assert [prefix[0]] + (prefix[1..] + Escaped(value)) == prefix + Escaped(value);
    }
  }

  /** A quotation mark put before a text joins the first word of it, or becomes one. */
  lemma TokensAfterMark(text: string)
    ensures forall token :: token in Tokens("\"" + text) && !("\"" <= token) ==> token in Tokens(text)
  {
    var s := "\"" + text;
    var n := RunLength(s, false);
    TokensOfRun(s, n);
    assert s[1..] == text;
    if n == 1 {
      assert s[n..] == text;
    } else {
      assert text[0] == s[1];
      assert RunLength(text, false) == n - 1;
      TokensOfRun(text, n - 1);
      assert text[n - 1..] == s[n..];
    }
  }

  lemma {:induction false} TokenOfPart(parts: seq<string>, i: nat, token: string)
    requires i < |parts| && token in Tokens(parts[i])
    ensures token in TokensOfAll(parts)
  {
    if i > 0 {
      TokenOfPart(parts[1..], i - 1, token);
    }
  }

  lemma TitleIsPlain()
    ensures forall i :: 0 <= i < |"Terminal: "| ==> "Terminal: "[i] != '"' && "Terminal: "[i] != '\\'
    ensures IsWhitespace("Terminal: "[9])
  {
  }

  lemma QuotedTitle(name: string)
    ensures Quote("Terminal: " + name) == "\"Terminal:" + " " + (Escaped(name) + "\"")
  {
    TitleIsPlain();
    EscapedAfter("Terminal: ", name);
    assert ("Terminal: " + name)[9] == "Terminal: "[9];
    hide Escaped, IsWhitespace;
    TitleMoves(Escaped(name));
  }

  lemma TitleMoves(text: string)
    ensures "\"" + ("Terminal: " + text) + "\"" == "\"Terminal:" + " " + (text + "\"")
  {
  }

  /** A marker among the words of a quoted name is one among those of the title. */
  lemma MarkerOfTitle(name: string)
    requires NeedsQuotes(name) && MARKER in Tokens(Quote(name))
    ensures MARKER in Tokens(Quote("Terminal: " + name))
  {
    hide Tokens, Escaped, NeedsQuotes;
    QuotedTitle(name);
    TokensAppend("\"Terminal:", Escaped(name) + "\"");
    assert "\"" + Escaped(name) + "\"" == "\"" + (Escaped(name) + "\"");
    TokensAfterMark(Escaped(name) + "\"");
    assert MARKER[0] == '-';
  }

  lemma LoneTokenHasNoOriginal(word: string)
    requires IsWord(word)
    ensures Extract(word) == None
  {
    TokensOfWord(word);
    hide Tokens, IsWord, Contains;
    assert FromTokens([word][1..]) == None;
  }

  lemma ShellsAreWords()
    ensures IsWord("wsl.exe") && IsWord("-d") && "wsl.exe" != MARKER && "-d" != MARKER
    ensures IsWord("pwsh.exe") && IsWord("powershell.exe") && IsWord("cmd.exe")
  {
    assert |"-d"| != |MARKER| && |"wsl.exe"| != |MARKER|;
  }

  /** A distribution started by its name. */
  lemma DistributionHasNoOriginal(name: string)
    requires MARKER !in Tokens(Quote("Terminal: " + name))
    ensures Extract("wsl.exe -d " + Quote(name)) == None
  {
    hide Tokens, IsWord, Contains, DecodeText, Quote;
    ShellsAreWords();
    Shift("wsl.exe", "-d", Quote(name));
    assert "wsl.exe" + " " + "-d" + (" " + Quote(name)) == "wsl.exe -d " + Quote(name);
    TokensAppend("wsl.exe", "-d" + " " + Quote(name));
    TokensAppend("-d", Quote(name));
    TokensOfWord("wsl.exe");
    TokensOfWord("-d");
    var words := Tokens(Quote(name));
    NoMarkerNoOriginal(name);
    FromTokensAppend(["-d"], words);
    FromTokensAppend(["wsl.exe"], ["-d"] + words);
  }

  lemma NoMarkerNoOriginal(name: string)
    requires MARKER !in Tokens(Quote("Terminal: " + name))
    ensures FromTokens(Tokens(Quote(name))) == None
  {
    hide Tokens, DecodeText, Escaped;
    if NeedsQuotes(name) {
      if MARKER in Tokens(Quote(name)) {
        MarkerOfTitle(name);
      }
      FromTokensAppend(Tokens(Quote(name)), []);
      assert Tokens(Quote(name)) + [] == Tokens(Quote(name));
    } else {
      TokensOfWord(name);
      assert FromTokens([name][1..]) == None;
    }
  }

  lemma NotBlank(c: string)
    requires c != "" && !IsWhitespace(c[0])
    ensures Trim(c) != ""
  {
    if Trim(c) == "" {
      BlankIsWhite(c);
    }
  }

  lemma ShellIsItsOwn(c: string)
    requires c in ["wsl.exe", "pwsh.exe", "powershell.exe", "cmd.exe"]
    ensures Extract(c) == None && Trim(c) != ""
  {
    ShellsAreWords();
    LoneTokenHasNoOriginal(c);
    NotBlank(c);
    hide Extract, Trim;
  }

  lemma DistributionIsItsOwn(name: string)
    requires MARKER !in Tokens(Quote("Terminal: " + name))
    ensures var c := "wsl.exe -d " + Quote(name); Extract(c) == None && Trim(c) != ""
  {
    DistributionHasNoOriginal(name);
    hide Tokens, Extract, Trim, Quote;
    ShellsAreWords();
    assert ("wsl.exe -d " + Quote(name))[0] == "wsl.exe"[0];
    NotBlank("wsl.exe -d " + Quote(name));
  }

  lemma InferredCases(name: string, source: string)
    ensures var c := InferredCommandline(name, source);
            c.Some? ==> c.value == "wsl.exe -d " + Quote(name)
                        || c.value in ["wsl.exe", "pwsh.exe", "powershell.exe", "cmd.exe"]
  {
    hide Contains, Trim, Quote, ToAsciiLowercase;
    var shells := ["wsl.exe", "pwsh.exe", "powershell.exe", "cmd.exe"];
    assert shells[0] in shells && shells[1] in shells && shells[2] in shells && shells[3] in shells;
  }

  /** Nothing is found in a command line inferred from the name, and it is not blank. */
  lemma InferredIsItsOwn(name: string, source: string)
    requires MARKER !in Tokens(Quote("Terminal: " + name))
    ensures var c := InferredCommandline(name, source);
            c.Some? ==> Extract(c.value) == None && Trim(c.value) != ""
  {
    hide Trim, Quote, Tokens, Extract, InferredCommandline;
    InferredCases(name, source);
    DistributionIsItsOwn(name);
    var c := InferredCommandline(name, source);
    if c.Some? && c.value != "wsl.exe -d " + Quote(name) {
      ShellIsItsOwn(c.value);
    }
  }

  /** An unnamed profile has no distribution name. */
  lemma UnnamedIsItsOwn(source: string)
    ensures var c := InferredCommandline("", source);
            c.Some? ==> Extract(c.value) == None && Trim(c.value) != ""
  {
    hide Tokens, Quote, Extract, Trim;
    TokensOfUnnamed();
    InferredIsItsOwn("", source);
  }

  lemma TokensOfUnnamed()
    ensures MARKER !in Tokens(Quote("Terminal: " + ""))
  {
    hide Tokens, Quote;
    QuotedTitle("");
    assert Escaped("") + "\"" == "\"";
    TokensAppend("\"Terminal:", "\"");
    TokensOfWord("\"Terminal:");
    TokensOfWord("\"");
    assert MARKER[0] == '-';
  }

  /** What a profile with a blank command line runs is not that command line. */
  lemma BlankIsNotOriginal(exe: string, addr: string, p: Profile)
    requires Wrappable(p) && WrapsCleanly(exe, addr, p)
    requires p.commandline.Some? && Trim(p.commandline.value) == ""
    ensures Original(p) != p.commandline
  {
    hide Tokens, Extract, Trim, Quote, InferredCommandline;
    var name := "Terminal: " + DisplayName(p);
    var front := Front(exe, addr, name);
    assert front[5] == Quote(name);
    if MARKER in Tokens(front[5]) {
      TokenOfPart(front, 5, MARKER);
    }
    if p.name.Some? {
      InferredIsItsOwn(p.name.value, OrElse(p.source, ""));
    } else {
      UnnamedIsItsOwn(OrElse(p.source, ""));
    }
  }

  lemma OwnOriginalIff(exe: string, addr: string, p: Profile)
    requires Wrappable(p) && WrapsCleanly(exe, addr, p)
    ensures Original(p) == p.commandline <==> IsRestorable(p)
  {
    hide Extract, InferredCommandline, Trim, WrapsCleanly, TrimMarks;
    if p.commandline.Some? {
      TrimmedIsNotOriginal(p.commandline.value);
      if Trim(p.commandline.value) == "" {
        BlankIsNotOriginal(exe, addr, p);
      }
    }
  }

  /** Unwrapping undoes wrapping for exactly these profiles. */
  lemma UnwrapUndoesWrapIff(exe: string, addr: string, p: Profile)
    requires WrapsCleanly(exe, addr, p)
    ensures UnwrapOne(WrapOne(exe, addr, p)) == p <==> IsRestorable(p)
  {
    if Wrappable(p) {
      OwnOriginalIff(exe, addr, p);
      UnwrapWrapped(exe, addr, p);
    } else if p.Profile? && p.commandline.Some? {
      WrappedIsLonger(p.commandline.value);
    }
    hide Extract, ProfileCommandline, Trim, Original, WrapsCleanly;
  }

  lemma UnwrapAllUndoesWrapAll(exe: string, addr: string, ps: seq<Profile>)
    requires forall i :: 0 <= i < |ps| ==> WrapsCleanly(exe, addr, ps[i]) && IsRestorable(ps[i])
    ensures Map(UnwrapOne, Map(Wrap(exe, addr), ps)) == ps
  {
    forall i | 0 <= i < |ps| ensures UnwrapOne(WrapOne(exe, addr, ps[i])) == ps[i] {
      UnwrapUndoesWrapIff(exe, addr, ps[i]);
    }
  }

  /** Wrapping wrapped profiles with another program or address gives what wrapping the originals gives. */
  lemma RewrapAll(exe: string, addr: string, exe2: string, addr2: string, ps: seq<Profile>)
    requires forall i :: 0 <= i < |ps| ==> WrapsCleanly(exe, addr, ps[i])
    ensures Map(Wrap(exe2, addr2), Map(Wrap(exe, addr), ps)) == Map(Wrap(exe2, addr2), ps)
  {
    forall i | 0 <= i < |ps| ensures WrapOne(exe2, addr2, WrapOne(exe, addr, ps[i])) == WrapOne(exe2, addr2, ps[i]) {
      RewrapOne(exe, addr, exe2, addr2, ps[i]);
    }
  }

  // ---- wrapping twice

  lemma {:induction false} SpacedSnoc(parts: seq<string>, last: string)
    requires parts != []
    ensures Spaced(parts + [last]) == Spaced(parts) + " " + last
  {
    var all := parts + [last];
    assert all[0] == parts[0] && all[1..] == parts[1..] + [last];
    if |parts| == 1 {
      assert all[1..] == [last];
    } else {
      SpacedSnoc(parts[1..], last);
      SpacedCons(parts);
      SpacedCons(all);
      hide Spaced;
      Insert(parts[0], Spaced(parts[1..]), last);
    }
  }

  lemma Insert(a: string, b: string, c: string)
    ensures a + " " + (b + " " + c) == a + " " + b + " " + c
  {
  }

  /** The wrapped command line: what stands before the original, and the original's code. */
  lemma BuildIs(exe: string, addr: string, name: string, original: string)
    ensures Build(exe, addr, name, original) ==
              Spaced(Front(exe, addr, name) + [MARKER]) + " " + AsciiText(Base64.EncodeBytes(Encode(original)))
  {
    hide Spaced, Front, AsciiText, Encode, Base64.EncodeBytes;
    var front, text := Front(exe, addr, name), AsciiText(Base64.EncodeBytes(Encode(original)));
    assert front + [MARKER, text] == front + [MARKER] + [text];
    SpacedSnoc(front + [MARKER], text);
  }

  lemma SameText(a: seq<byte>, b: seq<byte>)
    requires AsciiText(a) == AsciiText(b)
    ensures a == b
  {
    assert |a| == |b|;
    forall i | 0 <= i < |a| ensures a[i] == b[i] {
      assert AsciiText(a)[i] == AsciiText(b)[i];
    }
  }

  /** Different originals make different command lines. */
  lemma BuildIsInjective(exe: string, addr: string, name: string, a: string, b: string)
    ensures Build(exe, addr, name, a) == Build(exe, addr, name, b) <==> a == b
  {
    hide Build, Spaced, Front, AsciiText, Encode, Decode, Base64.EncodeBytes, Base64.DecodeBytes;
    if Build(exe, addr, name, a) == Build(exe, addr, name, b) {
      BuildIs(exe, addr, name, a);
      BuildIs(exe, addr, name, b);
      var front := Spaced(Front(exe, addr, name) + [MARKER]) + " ";
      SameAfter(front, AsciiText(Base64.EncodeBytes(Encode(a))), AsciiText(Base64.EncodeBytes(Encode(b))));
      SameText(Base64.EncodeBytes(Encode(a)), Base64.EncodeBytes(Encode(b)));
      Base64.DecodeEncoded(Encode(a));
      Base64.DecodeEncoded(Encode(b));
      DecodeEncode(a);
      DecodeEncode(b);
    }
  }

  lemma SameAfter(front: string, a: string, b: string)
    requires front + a == front + b
    ensures a == b
  {
    assert a == (front + a)[|front|..] && b == (front + b)[|front|..];
  }

  lemma {:induction false} EncodedIsLonger(s: string)
    ensures |Encode(s)| >= |s|
  {
    if s != "" {
      EncodedIsLonger(s[1..]);
    }
  }

  /** A wrapped command line is longer than what it wraps. */
  lemma BuildIsLonger(exe: string, addr: string, name: string, original: string)
    ensures |Build(exe, addr, name, original)| > |original|
  {
    hide Build, Spaced, Front, Encode, Base64.EncodeBytes;
    BuildIs(exe, addr, name, original);
    EncodedIsLonger(original);
    Base64.EncodingIsLonger(Encode(original));
  }

  lemma TrimSpace(text: string)
    requires IsSolid(text)
    ensures Trim(text + " ") == text
  {
    var s := text + " ";
    assert s[0] == text[0] && s[..|s| - 1] == text;
    assert Trim(text) == text;
  }

  /** An empty original is not spelled out: the marker comes last. */
  lemma EmptyBuild(exe: string, addr: string, name: string)
    ensures var line := Spaced(Front(exe, addr, name) + [MARKER]);
            && line != "" && Trim(Build(exe, addr, name, "")) == line
            && Extract(line) == if MARKER in TokensOfAll(Front(exe, addr, name))
                                then FromTokens(TokensOfAll(Front(exe, addr, name))) else None
  {
    hide Tokens, Spaced, DecodeText, Contains, TrimMarks, Quote, Build, Front, IsWhitespace;
    var front := Front(exe, addr, name);
    OptionsAreWords();
    NothingEncoded();
    BuildIs(exe, addr, name, "");
    FirstIsSolid(exe, addr, name);
    SpacedIsSolid(front + [MARKER]);
    assert Spaced(front + [MARKER]) + " " + "" == Spaced(front + [MARKER]) + " ";
    TrimSpace(Spaced(front + [MARKER]));
    ShimIsNamed(exe, addr, name, [MARKER]);
    TokensOfSpaced(front + [MARKER]);
    TokensOfAllAppend(front, [MARKER]);
    TokensOfWord(MARKER);
    LastMarker(front);
    FrontEndsInOption(exe, addr, name);
    FromTokensAppend(TokensOfAll(front), [MARKER]);
  }

  lemma LastMarker(front: seq<string>)
    requires Tokens(MARKER) == [MARKER]
    ensures TokensOfAll([MARKER]) == [MARKER] && FromTokens([MARKER]) == None
  {
    hide Tokens;
    assert [MARKER][1..] == [];
  }

  lemma FirstIsSolid(exe: string, addr: string, name: string)
    ensures var parts := Front(exe, addr, name) + [MARKER];
            parts[0] != "" && !IsWhitespace(parts[0][0]) && parts[|parts| - 1] == MARKER
  {
    QuoteStartsSolid(exe);
    hide Quote;
  }

  lemma NothingEncoded()
    ensures AsciiText(Base64.EncodeBytes(Encode(""))) == ""
  {
    Base64.NothingToEncode();
    assert Encode("") == [];
  }

  /** What is found in the command line that the profile is given. */
  function Found(exe: string, addr: string, p: Profile): Option<string>
    requires Wrappable(p)
  {
    var front := TokensOfAll(Front(exe, addr, "Terminal: " + DisplayName(p)));
    if MARKER in front then FromTokens(front) else if Original(p) == Some("") then None else Original(p)
  }

  predicate FindsItself(exe: string, addr: string, p: Profile) {
    Wrappable(p) ==> Found(exe, addr, p) == Original(p)
  }

  lemma ExtractFound(exe: string, addr: string, p: Profile)
    requires Wrappable(p)
    ensures Extract(Wrapped(exe, addr, p)) == Found(exe, addr, p)
  {
    hide Build, Extract, TokensOfAll, FromTokens, Front;
    var name, original := "Terminal: " + DisplayName(p), Original(p).value;
    if original == "" {
      ExtractEmpty(exe, addr, name);
    } else {
      ExtractWrapped(exe, addr, name, original);
    }
  }

  lemma ExtractEmpty(exe: string, addr: string, name: string)
    ensures var front := TokensOfAll(Front(exe, addr, name));
            Extract(Build(exe, addr, name, "")) == if MARKER in front then FromTokens(front) else None
  {
    hide Tokens, Spaced, DecodeText, Contains, Front, Base64.EncodeBytes;
    var front := Front(exe, addr, name);
    OptionsAreWords();
    NothingEncoded();
    ShimIsNamed(exe, addr, name, [MARKER, ""]);
    TokensOfSpaced(front + [MARKER, ""]);
    TokensOfAllAppend(front, [MARKER, ""]);
    TokensOfWord(MARKER);
    MarkerAndNothing();
    LastMarker(front);
    FrontEndsInOption(exe, addr, name);
    FromTokensAppend(TokensOfAll(front), [MARKER]);
  }

  lemma MarkerAndNothing()
    requires Tokens(MARKER) == [MARKER]
    ensures TokensOfAll([MARKER, ""]) == [MARKER]
  {
    assert Tokens("") == [];
    assert [MARKER, ""][1..] == [""] && [""][1..] == [];
    hide Tokens;
  }

  /** What runs in the end of a wrapped profile is what ran before, exactly then. */
  lemma WrappedOriginalIff(exe: string, addr: string, p: Profile)
    requires Wrappable(p)
    ensures var q := WrapOne(exe, addr, p);
            && Wrappable(q) && DisplayName(q) == DisplayName(p)
            && (Original(q) == Original(p) <==> FindsItself(exe, addr, p))
  {
    hide Build, Extract, InferredCommandline, FromTokens, TokensOfAll, Trim, Spaced, Front;
    var name, original := "Terminal: " + DisplayName(p), Original(p).value;
    if original == "" {
      EmptyBuild(exe, addr, name);
    } else {
      BuildIsSolid(exe, addr, name, original);
      ExtractWrapped(exe, addr, name, original);
      BuildIsLonger(exe, addr, name, original);
    }
  }

  /** A command line in which nothing is found is not given to the profile that has it. */
  lemma WrappedIsNew(exe: string, addr: string, p: Profile)
    requires Wrappable(p) && Found(exe, addr, p) == None
    ensures p.commandline != Some(Wrapped(exe, addr, p))
  {
    hide Build, Extract, InferredCommandline, FromTokens, TokensOfAll, Trim, Spaced, Front;
    var name, original := "Terminal: " + DisplayName(p), Original(p).value;
    ExtractFound(exe, addr, p);
    if original == "" {
      EmptyBuild(exe, addr, name);
    } else {
      BuildIsSolid(exe, addr, name, original);
      BuildIsLonger(exe, addr, name, original);
    }
  }

  /** Unwrapping undoes wrapping for exactly these profiles, whatever their names. */
  lemma WrapIsUndoneIff(exe: string, addr: string, p: Profile)
    ensures UnwrapOne(WrapOne(exe, addr, p)) == p <==>
              if Wrappable(p) then p.commandline.Some? && Found(exe, addr, p) == p.commandline
              else p.Profile? && p.commandline.Some? ==> Extract(p.commandline.value) == None
  {
    hide Extract, Found, ProfileCommandline, Build, Original;
    if Wrappable(p) {
      ExtractFound(exe, addr, p);
      if Found(exe, addr, p) == None {
        WrappedIsNew(exe, addr, p);
      }
    } else if p.Profile? && p.commandline.Some? {
      WrappedIsLonger(p.commandline.value);
    }
  }

  lemma WrapOneTwiceIff(exe: string, addr: string, p: Profile)
    ensures WrapOne(exe, addr, WrapOne(exe, addr, p)) == WrapOne(exe, addr, p) <==> FindsItself(exe, addr, p)
  {
    if Wrappable(p) {
      var q := WrapOne(exe, addr, p);
      WrappedOriginalIff(exe, addr, p);
      hide Build, Original, ProfileCommandline, FindsItself;
      BuildIsInjective(exe, addr, "Terminal: " + DisplayName(p), Original(p).value, Original(q).value);
    }
  }

  /** Wrapping twice is wrapping once for exactly these profiles. */
  lemma WrapIsIdempotentIff(exe: string, addr: string, ps: seq<Profile>)
    ensures Map(Wrap(exe, addr), Map(Wrap(exe, addr), ps)) == Map(Wrap(exe, addr), ps) <==>
              forall i :: 0 <= i < |ps| ==> FindsItself(exe, addr, ps[i])
  {
    hide WrapOne, FindsItself;
    var once := Map(Wrap(exe, addr), ps);
    var twice := Map(Wrap(exe, addr), once);
    forall i | 0 <= i < |ps| ensures twice[i] == once[i] <==> FindsItself(exe, addr, ps[i]) {
      WrapOneTwiceIff(exe, addr, ps[i]);
    }
  }

  /** The second time nothing is reported, so the settings file is not written. */
  lemma WrapIsIdempotent(exe: string, addr: string, ps: seq<Profile>)
    requires forall i :: 0 <= i < |ps| ==> FindsItself(exe, addr, ps[i])
    ensures Map(Wrap(exe, addr), Map(Wrap(exe, addr), ps)) == Map(Wrap(exe, addr), ps)
    ensures Changed(Wrap(exe, addr), Map(Wrap(exe, addr), ps)) == []
  {
    WrapIsIdempotentIff(exe, addr, ps);
    hide FindsItself;
    var wrapped := Map(Wrap(exe, addr), ps);
    forall i | 0 <= i < |wrapped| ensures Wrap(exe, addr)(wrapped[i]) == wrapped[i] {
      assert Map(Wrap(exe, addr), wrapped)[i] == wrapped[i];
    }
    UnchangedIsNotReported(Wrap(exe, addr), wrapped);
  }

  lemma {:induction false} UnchangedIsNotReported(f: Profile -> Profile, ps: seq<Profile>)
    requires forall i :: 0 <= i < |ps| ==> f(ps[i]) == ps[i]
    ensures Changed(f, ps) == []
  {
    if ps != [] {
      UnchangedIsNotReported(f, ps[..|ps| - 1]);
    }
  }

  // ---- a profile name that contains the marker

  lemma {:induction false} EscapedPlainly(value: string)
    requires forall i :: 0 <= i < |value| ==> value[i] != '"' && value[i] != '\\'
    ensures Escaped(value) == value
  {
    if value == "" {
      assert Repeat('\\', 0) == "";
    } else {
      EscapedPlainly(value[1..]);
      assert Leading(value) == 0;
      assert Repeat('\\', 0) + [value[0]] + value[1..] == value;
    }
  }

  /** What a profile named `--cmdline-b64 A` is called on the command line. */
  const MISLEADING: string := "Terminal:" + " " + (MARKER + " " + "A")

  const FIRST: string := "\"Terminal:"
  const LAST: string := "A\""

  predicate IsPlain(s: string) {
    forall i :: 0 <= i < |s| ==> s[i] != '"' && s[i] != '\\'
  }

  lemma PlainAppend(a: string, b: string)
    requires IsPlain(a) && IsPlain(b)
    ensures IsPlain(a + " " + b)
  {
  }

  lemma QuoteOfPlain(a: string, b: string)
    requires IsPlain(a + " " + b)
    ensures Quote(a + " " + b) == "\"" + (a + " " + b) + "\""
  {
    EscapedPlainly(a + " " + b);
    assert IsWhitespace((a + " " + b)[|a|]);
    hide Escaped;
  }

  lemma QuotedMisleading()
    ensures Quote(MISLEADING) == FIRST + " " + (MARKER + " " + LAST)
  {
    PlainAppend(MARKER, "A");
    PlainAppend("Terminal:", MARKER + " " + "A");
    QuoteOfPlain("Terminal:", MARKER + " " + "A");
    hide Quote, IsPlain;
    QuoteMoves("Terminal:", MARKER, "A");
    assert "\"" + "Terminal:" == FIRST && "A" + "\"" == LAST;
  }

  lemma QuoteMoves(a: string, b: string, c: string)
    ensures "\"" + (a + " " + (b + " " + c)) + "\"" == "\"" + a + " " + (b + " " + (c + "\""))
  {
  }

  lemma MisleadingTokens()
    ensures Tokens(Quote(MISLEADING)) == [FIRST, MARKER, LAST]
  {
    hide Tokens, Quote;
    OptionsAreWords();
    QuotedMisleading();
    TokensAppend(FIRST, MARKER + " " + LAST);
    TokensAppend(MARKER, LAST);
    TokensOfWord(FIRST);
    TokensOfWord(MARKER);
    TokensOfWord(LAST);
  }

  /** A lone base64 symbol does not decode. */
  lemma LoneSymbolFails()
    ensures DecodeText(LAST) == None
  {
    assert TrimMarks(LAST) == "A" by {
      assert LAST[..1] == "A";
    }
    assert "A"[1..] == "";
    assert Encode("A") == [65];
    assert [65][1..] == [] && Base64.Clean([65]) == [65] + Base64.Clean([]);
  }

  /**
   * The condition on the marker is needed: for a profile named
   * `--cmdline-b64 A`, whatever its command line, nothing is found again, so the
   * profile stays wrapped and a second wrapping wraps the wrapped one.
   */
  lemma MarkerInNameLosesOriginal(exe: string, addr: string, original: string)
    requires original != "" && MARKER !in Tokens(Quote(exe)) && MARKER !in Tokens(Quote(addr))
    ensures Extract(Build(exe, addr, MISLEADING, original)) == None
  {
    hide Tokens, Quote, DecodeText, Extract, Build;
    var front := Front(exe, addr, MISLEADING);
    ExtractWrapped(exe, addr, MISLEADING, original);
    var before, after := front[..5], [FOLLOW];
    MisleadingTokens();
    assert front == before + ([front[5]] + after);
    TokensOfAllAppend(before, [front[5]] + after);
    TokensOfAllAppend([front[5]], after);
    FrontOptions(exe, addr, MISLEADING);
    LoneSymbolFails();
    FromMarked(TokensOfAll(before), TokensOfAll(after));
  }

  lemma FromMarked(before: seq<string>, after: seq<string>)
    requires MARKER !in before
    ensures var tokens := before + ([FIRST, MARKER, LAST] + after);
            MARKER in tokens && FromTokens(tokens) == DecodeText(LAST)
  {
    var marked := [FIRST, MARKER, LAST] + after;
    FromTokensAppend(before, marked);
    assert marked[0] == FIRST != MARKER && marked[1..][0] == MARKER && marked[1..][1] == LAST;
    assert (before + marked)[|before| + 1] == MARKER;
  }

  lemma FrontOptions(exe: string, addr: string, name: string)
    requires MARKER !in Tokens(Quote(exe)) && MARKER !in Tokens(Quote(addr))
    ensures var front := Front(exe, addr, name);
            && MARKER !in TokensOfAll(front[..5])
            && front[5] == Quote(name)
            && TokensOfAll([front[5]]) == Tokens(Quote(name))
  {
    hide Tokens, Quote;
    var front := Front(exe, addr, name);
    var words := front[..5];
    ShimIsWord();
    DaemonIsWord();
    NameIsWord();
    TokensOfOther("terminal-shim");
    TokensOfOther("--daemon");
    TokensOfOther("--name");
    NotInTokensOfAll(words);
    assert [front[5]][1..] == [];
  }

  lemma ShimIsWord()
    ensures IsWord("terminal-shim") && "terminal-shim" != MARKER
  {
    assert "terminal-shim"[0] != MARKER[0];
  }

  lemma DaemonIsWord()
    ensures IsWord("--daemon") && |"--daemon"| != |MARKER|
  {
  }

  lemma NameIsWord()
    ensures IsWord("--name") && |"--name"| != |MARKER|
  {
  }

  lemma TokensOfOther(word: string)
    requires IsWord(word) && word != MARKER
    ensures MARKER !in Tokens(word)
  {
    TokensOfWord(word);
    hide Tokens;
  }

  lemma {:induction false} NotInTokensOfAll(words: seq<string>)
    requires forall i :: 0 <= i < |words| ==> MARKER !in Tokens(words[i])
    ensures MARKER !in TokensOfAll(words)
  {
    if words != [] {
      NotInTokensOfAll(words[1..]);
    }
  }

  // ---- a profile whose original is empty

  const EMPTIED: string := "terminal-shim" + " " + (MARKER + " " + "\"\"")

  lemma MarksDecodeToNothing()
    ensures DecodeText("\"\"") == Some("") && IsWord("\"\"")
  {
    assert "\"\""[1..] == "\"" && "\""[1..] == "";
    assert TrimMarks("\"\"") == TrimMarks("\"") == "";
    assert Encode("") == [] && Base64.Clean([]) == [];
    DecodeNothing();
  }

  lemma EmptiedTokens()
    ensures Tokens(EMPTIED) == ["terminal-shim"] + [MARKER, "\"\""]
  {
    hide Tokens, DecodeText, TrimMarks;
    MarksDecodeToNothing();
    ShimIsWord();
    OptionsAreWords();
    hide IsWord;
    TokensAppend("terminal-shim", MARKER + " " + "\"\"");
    TokensAppend(MARKER, "\"\"");
    TokensOfWord("terminal-shim");
    TokensOfWord(MARKER);
    TokensOfWord("\"\"");
  }

  lemma EmptiedIsFound()
    ensures FromTokens(["terminal-shim"] + [MARKER, "\"\""]) == Some("")
  {
    MarksDecodeToNothing();
    ShimIsWord();
    hide DecodeText, IsWord;
    FromTokensAppend(["terminal-shim"], [MARKER, "\"\""]);
    FirstIsMarker("\"\"");
  }

  lemma FirstIsMarker(token: string)
    ensures FromTokens([MARKER, token]) == DecodeText(token)
  {
    hide DecodeText;
  }

  lemma EmptiedIsTrimmed()
    ensures Trim(EMPTIED) == EMPTIED != ""
  {
    assert EMPTIED[0] == 't' && EMPTIED[|EMPTIED| - 1] == '"';
  }

  lemma EmptiedIsEmpty()
    ensures Extract(EMPTIED) == Some("") && Trim(EMPTIED) == EMPTIED != ""
  {
    hide Tokens, FromTokens, Trim, Contains;
    EmptiedTokens();
    EmptiedIsFound();
    EmptiedIsTrimmed();
    ContainsPart("", "terminal-shim", " " + (MARKER + " " + "\"\""));
    StartsPlainly("terminal-shim", MARKER + " " + "\"\"");
  }

  lemma StartsPlainly(part: string, b: string)
    ensures "" + part + (" " + b) == part + " " + b
  {
  }

  /** A profile wrapped around nothing is wrapped again each time, whatever its name. */
  lemma EmptyOriginalIsWrappedAgain(exe: string, addr: string, p: Profile)
    requires p.Profile? && !p.hidden && p.commandline == Some(EMPTIED)
    requires MARKER !in TokensOfAll(Front(exe, addr, "Terminal: " + DisplayName(p)))
    ensures WrapOne(exe, addr, WrapOne(exe, addr, p)) != WrapOne(exe, addr, p)
  {
    EmptiedIsEmpty();
    WrapOneTwiceIff(exe, addr, p);
    hide WrapOne, Extract, Trim, TokensOfAll, Front;
  }

  // ---- a marker in the name that happens to be followed by something

  /** For a profile named by the marker and an encoding, that encoding's text is what is found. */
  lemma MarkerInNameFindsAnother(exe: string, addr: string, title: string, original: string)
    requires original != "" && MARKER !in Tokens(Quote(exe)) && MARKER !in Tokens(Quote(addr))
    requires MARKER in Tokens(Quote(title)) && FromTokens(Tokens(Quote(title))).Some?
    ensures Extract(Build(exe, addr, title, original)) == FromTokens(Tokens(Quote(title)))
  {
    hide Tokens, Quote, DecodeText, Extract, Build;
    var front := Front(exe, addr, title);
    ExtractWrapped(exe, addr, title, original);
    FrontOptions(exe, addr, title);
    assert front == front[..5] + ([front[5]] + [FOLLOW]);
    TokensOfAllAppend(front[..5], [front[5]] + [FOLLOW]);
    TokensOfAllAppend([front[5]], [FOLLOW]);
    FromTokensAppend(TokensOfAll(front[..5]), TokensOfAll([front[5]]) + TokensOfAll([FOLLOW]));
    FoundStays(Tokens(Quote(title)), TokensOfAll([FOLLOW]));
  }

  lemma {:induction false} FoundStays(tokens: seq<string>, more: seq<string>)
    requires FromTokens(tokens).Some?
    ensures FromTokens(tokens + more) == FromTokens(tokens) && MARKER in tokens + more
  {
    assert (tokens + more)[0] == tokens[0];
    if tokens[0] == MARKER {
      assert (tokens + more)[1] == tokens[1];
    } else {
      assert (tokens + more)[1..] == tokens[1..] + more;
      FoundStays(tokens[1..], more);
    }
  }

  // ---- what a wrapped command line starts

  /** The quoted parts, separated by spaces, are a command line. */
  lemma {:induction false} SpacedIsCommandLine(parts: seq<string>, values: seq<string>)
    requires |parts| == |values| > 0 && forall i :: 0 <= i < |parts| ==> parts[i] == Quote(values[i])
    ensures Spaced(parts) == CommandLine(values)
  {
    hide Quote;
    if |parts| > 1 {
      SpacedIsCommandLine(parts[1..], values[1..]);
      assert parts[0] + " " + Spaced(parts[1..]) == parts[0] + (" " + Spaced(parts[1..]));
    }
  }

  /** A word without marks and backslashes is its own quotation. */
  lemma PlainIsUnquoted(word: string)
    requires IsWord(word) && forall i :: 0 <= i < |word| ==> word[i] != '"' && word[i] != '\\'
    ensures Quote(word) == word
  {
  }

  lemma OptionsAreUnquoted()
    ensures Quote("terminal-shim") == "terminal-shim" && Quote("--daemon") == "--daemon" && Quote("--name") == "--name"
    ensures Quote(FOLLOW) == FOLLOW && Quote(MARKER) == MARKER
  {
    ShimIsWord();
    DaemonIsWord();
    NameIsWord();
    OptionsAreWords();
    hide Quote, IsWord;
    PlainIsUnquoted("terminal-shim");
    PlainIsUnquoted("--daemon");
    PlainIsUnquoted("--name");
    PlainIsUnquoted(FOLLOW);
    PlainIsUnquoted(MARKER);
  }

  /** The arguments meant for the capture program, but for the encoded original. */
  function Meant(exe: string, addr: string, name: string): seq<string> {
    [exe, "terminal-shim", "--daemon", addr, "--name", name, "--follow-console-size", "--cmdline-b64"]
  }

  lemma QuotedFront(exe: string, addr: string, name: string)
    ensures var parts, values := Front(exe, addr, name) + [MARKER], Meant(exe, addr, name);
            |parts| == |values| && forall i :: 0 <= i < |parts| ==> parts[i] == Quote(values[i])
  {
    OptionsAreUnquoted();
    hide Quote;
  }

  lemma BuildIsCommandLine(exe: string, addr: string, name: string, original: string)
    ensures var text := AsciiText(Base64.EncodeBytes(Encode(original)));
            Build(exe, addr, name, original) ==
              if original == "" then CommandLine(Meant(exe, addr, name)) + " "
              else CommandLine(Meant(exe, addr, name) + [text])
  {
    hide Quote, Front, Meant, CommandLine, Spaced, Base64.EncodeBytes, Encode, AsciiText, Build, IsWord, TrimMarks,
         DecodeText;
    var front, values, text := Front(exe, addr, name), Meant(exe, addr, name),
      AsciiText(Base64.EncodeBytes(Encode(original)));
    QuotedFront(exe, addr, name);
    BuildIs(exe, addr, name, original);
    if original == "" {
      NothingEncoded();
      SpacedIsCommandLine(front + [MARKER], values);
      assert CommandLine(values) + " " + "" == CommandLine(values) + " ";
    } else {
      EncodedIsPlain(original);
      SpacedSnoc(front + [MARKER], text);
      SpacedIsCommandLine(front + [MARKER] + [text], values + [text]);
    }
  }

  lemma EncodedIsPlain(original: string)
    requires original != ""
    ensures var text := AsciiText(Base64.EncodeBytes(Encode(original))); Quote(text) == text
  {
    hide Base64.EncodeBytes, Encode, Quote, DecodeText, TrimMarks, IsWord;
    EncodedIsWord(original);
    Base64.EncodingIsText(Encode(original));
    var code := Base64.EncodeBytes(Encode(original));
    AsciiIsPlain(code);
    PlainIsUnquoted(AsciiText(code));
  }

  lemma AsciiIsPlain(code: seq<byte>)
    requires forall i :: 0 <= i < |code| ==> 43 <= code[i] < 123 && code[i] != 92
    ensures forall i :: 0 <= i < |code| ==> AsciiText(code)[i] != '"' && AsciiText(code)[i] != '\\'
  {
  }

  /** What the arguments carry of the original: nothing when it is empty, else its encoding. */
  predicate Carries(more: seq<string>, original: string) {
    if original == "" then more == []
    else |more| == 1 && Base64.DecodeBytes(Encode(more[0])) == Success(Encode(original))
  }

  lemma EncodingIsCarried(original: string)
    ensures Carries(if original == "" then [] else [AsciiText(Base64.EncodeBytes(Encode(original)))], original)
  {
    if original != "" {
      Base64.DecodeEncoded(Encode(original));
      Base64.EncodingIsText(Encode(original));
      hide Base64.EncodeBytes, Base64.DecodeBytes, Encode;
      var code := Base64.EncodeBytes(Encode(original));
      EncodeAscii(code);
    }
  }

  /**
   * What a wrapped command line starts: for every program, address, name and
   * original, the capture program is handed exactly the words meant for it, and
   * after the marker the encoded original.
   */
  lemma WrappedArguments(exe: string, addr: string, name: string, original: string) returns (more: seq<string>)
    ensures ParseArgs(Build(exe, addr, name, original)) ==
              [exe, "terminal-shim", "--daemon", addr, "--name", name, "--follow-console-size", "--cmdline-b64"] + more
    ensures Carries(more, original)
  {
    hide Build, ParseArgs, CommandLine, Carries, Base64.EncodeBytes, Encode, AsciiText;
    more := if original == "" then [] else [AsciiText(Base64.EncodeBytes(Encode(original)))];
    EncodingIsCarried(original);
    BuildIsCommandLine(exe, addr, name, original);
    var values := Meant(exe, addr, name);
    if original == "" {
      ArgumentsThenRest(values, " ");
      BlankIsNoArgument();
      assert values + [] == values;
    } else {
      ArgumentsRoundTrip(values + more);
    }
  }

  lemma BlankIsNoArgument()
    ensures ParseArgs(" ") == []
  {
    assert " "[1..] == "";
  }

  /** The program itself is read by a rule of its own: as it was given, exactly then. */
  lemma WrappedProgramIff(exe: string, addr: string, name: string, original: string)
    requires original != ""
    ensures var words := ProgramAndArgs(Build(exe, addr, name, original));
            && words != []
            && (words[0] == exe <==> '"' !in exe && (exe == "" || exe[|exe| - 1] != '\\'))
            && (words[0] == exe ==> words == ParseArgs(Build(exe, addr, name, original)))
  {
    hide Build, ProgramName, ParseArgs, CommandLine, Quote, Base64.EncodeBytes, Encode, AsciiText;
    BuildIsCommandLine(exe, addr, name, original);
    var values := Meant(exe, addr, name) + [AsciiText(Base64.EncodeBytes(Encode(original)))];
    var rest := " " + CommandLine(values[1..]);
    assert [exe] + values[1..] == values;
    ArgumentsRoundTrip(values);
    ProgramAndArgsIff(exe, values[1..]);
    ProgramOfLine(values);
    ProgramNameIsReadIff(exe, rest);
  }

  lemma ProgramOfLine(values: seq<string>)
    requires |values| > 1
    ensures CommandLine(values) == Quote(values[0]) + (" " + CommandLine(values[1..]))
    ensures EndsArg(" " + CommandLine(values[1..]))
  {
    hide Quote;
  }

  /** Every profile that wrapping changes starts the capture program under its own name, with what it ran before. */
  lemma WrappedProfileStarts(exe: string, addr: string, p: Profile) returns (more: seq<string>)
    requires Wrappable(p)
    ensures var q := WrapOne(exe, addr, p);
            && q.Profile? && q.name == p.name && q.hidden == p.hidden && q.source == p.source && q.commandline.Some?
            && ParseArgs(q.commandline.value) ==
                 [exe, "terminal-shim", "--daemon", addr, "--name",
                  "Terminal: " + (if p.name.Some? then p.name.value else "Windows Terminal"),
                  "--follow-console-size", "--cmdline-b64"] + more
            && Carries(more, Original(p).value)
  {
    hide Build, ParseArgs, Carries, InferredCommandline;
    more := WrappedArguments(exe, addr, "Terminal: " + DisplayName(p), Original(p).value);
  }
}

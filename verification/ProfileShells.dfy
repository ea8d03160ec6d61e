/**
 * Which terminal profiles are wrapped, what runs in them, and which shell is taken
 * for a profile that does not name one.
 */
module ProfileShells {
  import opened Wrappers
  import opened Utf8
  import opened WindowsArgs
  import opened TerminalProfiles

  // ---- which profiles

  predicate HasText(o: Option<string>) {
    o.Some? && exists i :: 0 <= i < |o.value| && !IsWhitespace(o.value[i])
  }

  lemma {:induction false} BlankTrimsAway(s: string)
    ensures Trim(s) == "" <==> forall i :: 0 <= i < |s| ==> IsWhitespace(s[i])
  {
    var front, back := TrimTrims(s);
    hide Trim;
    if Trim(s) == "" {
      assert s == front + back;
    } else {
      assert s[|front|] == Trim(s)[0];
    }
  }

  /**
   * A profile is wrapped when it is visible and names a command line, or has a name
   * or source from which a shell can be inferred. Every other one stays as it is.
   */
  lemma WrapsIff(exe: string, addr: string, p: Profile)
    ensures Wrappable(p) <==>
              && p.Profile? && !p.hidden
              && (HasText(p.commandline)
                  || InferredCommandline(if p.name.Some? then p.name.value else "",
                                         if p.source.Some? then p.source.value else "").Some?)
    ensures !Wrappable(p) ==> WrapOne(exe, addr, p) == p
  {
    hide InferredCommandline, Trim, Wrapped;
    if p.Profile? && p.commandline.Some? {
      BlankTrimsAway(p.commandline.value);
    }
  }

  lemma {:induction false} TrimSurrounded(front: string, line: string, back: string)
    requires forall i :: 0 <= i < |front| ==> IsWhitespace(front[i])
    requires forall i :: 0 <= i < |back| ==> IsWhitespace(back[i])
    requires IsSolid(line)
    ensures Trim(front + line + back) == line
    decreases |front| + |back|
  {
    var s := front + line + back;
    if front != "" {
      assert s[0] == front[0] && s[1..] == front[1..] + line + back;
      TrimSurrounded(front[1..], line, back);
    } else if back != "" {
      var init := back[..|back| - 1];
      assert s[0] == line[0] && s[|s| - 1] == back[|back| - 1] && s[..|s| - 1] == front + line + init;
      TrimSurrounded(front, line, init);
    } else {
      assert s == line;
    }
  }

  /** What runs in the end: what the command line carries, or else the command line itself, trimmed. */
  lemma LineRuns(p: Profile, front: string, line: string, back: string)
    requires forall i :: 0 <= i < |front| ==> IsWhitespace(front[i])
    requires forall i :: 0 <= i < |back| ==> IsWhitespace(back[i])
    requires IsSolid(line) && p.Profile? && p.commandline == Some(front + line + back)
    ensures Original(p) == Some(if Extract(line).Some? then Extract(line).value else line)
  {
    TrimSurrounded(front, line, back);
    hide Trim, Extract, IsSolid;
    assert line != "" by { SolidIsText(line); }
  }

  lemma SolidIsText(line: string)
    requires IsSolid(line)
    ensures line != ""
  {
  }

  /** Without a command line, it is the shell inferred. */
  lemma ShellRuns(p: Profile)
    requires p.Profile? && !HasText(p.commandline)
    requires MARKER !in Tokens(Quote("Terminal: " + OrElse(p.name, "")))
    ensures Original(p) == InferredCommandline(if p.name.Some? then p.name.value else "",
                                               if p.source.Some? then p.source.value else "")
  {
    InferredIsItsOwn(OrElse(p.name, ""), OrElse(p.source, ""));
    hide InferredCommandline, Trim, Extract, Tokens, Quote;
    if p.commandline.Some? {
      BlankTrimsAway(p.commandline.value);
    }
  }

  // ---- what is reported

  lemma SupportedLast(ps: seq<Profile>)
    requires ps != []
    ensures var init, last := ps[..|ps| - 1], ps[|ps| - 1];
            Supported(ps) == Supported(init) +
              if Wrappable(last) then [if last.name.Some? then last.name.value else "Windows Terminal"] else []
  {
  }

  /** The names reported as wrappable are those of the profiles that are wrapped. */
  lemma {:induction false} SupportedIff(ps: seq<Profile>, name: string)
    ensures name in Supported(ps) <==>
              exists i :: 0 <= i < |ps| && Wrappable(ps[i])
                && name == if ps[i].name.Some? then ps[i].name.value else "Windows Terminal"
    ensures |Supported(ps)| <= |ps|
  {
    if ps != [] {
      var init, last := ps[..|ps| - 1], ps[|ps| - 1];
      SupportedIff(init, name);
      hide Wrappable, Supported;
      SupportedLast(ps);
      assert forall i :: 0 <= i < |init| ==> init[i] == ps[i];
    }
  }

  /** The names reported as changed are those of the profiles that were. */
  lemma {:induction false} ChangedIff(f: Profile -> Profile, ps: seq<Profile>, name: string)
    ensures name in Changed(f, ps) <==>
              exists i :: 0 <= i < |ps| && ps[i].Profile? && f(ps[i]) != ps[i]
                && name == if ps[i].name.Some? then ps[i].name.value else "Windows Terminal"
    ensures |Changed(f, ps)| <= |ps|
  {
    if ps != [] {
      var init, last := ps[..|ps| - 1], ps[|ps| - 1];
      ChangedIff(f, init, name);
      assert forall i :: 0 <= i < |init| ==> init[i] == ps[i];
    }
  }

  // ---- which shell

  /** The same text but for the case of Latin letters. */
  predicate SameButForCase(a: string, b: string) {
    && |a| == |b|
    && forall i :: 0 <= i < |a| ==>
         || a[i] == b[i]
         || ('A' <= a[i] <= 'Z' && b[i] as int == a[i] as int + 32)
         || ('A' <= b[i] <= 'Z' && a[i] as int == b[i] as int + 32)
  }

  /** A text contains a word, written in any case. */
  ghost predicate Says(text: string, word: string) {
    exists i: nat :: SaysAt(text, word, i)
  }

  ghost predicate SaysAt(text: string, word: string, i: nat) {
    i + |word| <= |text| && SameButForCase(text[i..i + |word|], word)
  }

  predicate IsLowercase(word: string) {
    forall i :: 0 <= i < |word| ==> !('A' <= word[i] <= 'Z')
  }

  lemma LowercaseIff(a: string, word: string)
    requires IsLowercase(word)
    ensures ToAsciiLowercase(a) == word <==> SameButForCase(a, word)
  {
    if SameButForCase(a, word) {
      assert ToAsciiLowercase(a) == word;
    } else if |a| == |word| {
      var i :| 0 <= i < |a| && !(|| a[i] == word[i]
                                 || ('A' <= a[i] <= 'Z' && word[i] as int == a[i] as int + 32)
                                 || ('A' <= word[i] <= 'Z' && a[i] as int == word[i] as int + 32));
      assert ToAsciiLowercase(a)[i] != word[i];
    }
  }

  lemma SaysIff(text: string, word: string)
    requires IsLowercase(word)
    ensures Contains(ToAsciiLowercase(text), word) <==> Says(text, word)
  {
    forall i: nat | i + |word| <= |text|
      ensures PartAt(ToAsciiLowercase(text), word, i) <==> SaysAt(text, word, i)
    {
      assert ToAsciiLowercase(text)[i..i + |word|] == ToAsciiLowercase(text[i..i + |word|]);
      LowercaseIff(text[i..i + |word|], word);
    }
  }

  /** What has one of these words is a distribution of Linux. */
  ghost predicate IsLinux(name: string, source: string) {
    Says(source, "wsl") || Says(name, "ubuntu") || Says(name, "debian")
  }

  /** A distribution of Linux is started by its name, if it has one. */
  lemma DistributionIsNamed(name: string, source: string)
    requires IsLinux(name, source)
    ensures var c := InferredCommandline(name, source);
            c.Some? && ParseArgs(c.value) == if Trim(name) == "" then ["wsl.exe"] else ["wsl.exe", "-d", name]
  {
    SaysIff(source, "wsl");
    SaysIff(name, "ubuntu");
    SaysIff(name, "debian");
    hide Contains, Trim, Quote, ToAsciiLowercase, ParseArgs, Says;
    WslIsUnquoted();
    ArgumentsRoundTrip(["wsl.exe"]);
    ArgumentsRoundTrip(["wsl.exe", "-d", name]);
    WslLine(name);
  }

  lemma WslIsUnquoted()
    ensures Quote("wsl.exe") == "wsl.exe" && Quote("-d") == "-d"
  {
    PlainIsUnquoted("wsl.exe");
    PlainIsUnquoted("-d");
  }

  lemma WslLine(name: string)
    requires Quote("wsl.exe") == "wsl.exe" && Quote("-d") == "-d"
    ensures CommandLine(["wsl.exe"]) == "wsl.exe"
    ensures CommandLine(["wsl.exe", "-d", name]) == "wsl.exe -d " + Quote(name)
  {
    hide Quote;
    var all := ["wsl.exe", "-d", name];
    assert all[1..] == ["-d", name] && all[1..][1..] == [name];
    assert CommandLine(all[1..][1..]) == Quote(name);
    assert CommandLine(all[1..]) == "-d" + (" " + Quote(name));
    assert "wsl.exe" + (" " + ("-d" + (" " + Quote(name)))) == "wsl.exe -d " + Quote(name);
  }

  lemma SaysPart(text: string, whole: string, front: string, word: string, back: string)
    requires whole == front + word + back && Says(text, whole)
    ensures Says(text, word)
  {
    var i: nat :| SaysAt(text, whole, i);
    var found := text[i..i + |whole|];
    assert text[i + |front|..i + |front| + |word|] == found[|front|..|front| + |word|];
    assert word == whole[|front|..|front| + |word|];
    assert SaysAt(text, word, i + |front|);
  }

  lemma SaysSame(text: string, word: string)
    requires SameButForCase(text, word)
    ensures Says(text, word)
  {
    assert text[0..0 + |word|] == text;
    assert SaysAt(text, word, 0);
  }

  /** PowerShell 7 is meant by its name or by the source of its profiles. */
  ghost predicate IsPowerShell7(name: string, source: string) {
    Says(source, "powershellcore") || SameButForCase(name, "powershell") || Says(name, "powershell 7")
  }

  /**
   * Of the other shells PowerShell 7 comes first. Windows PowerShell is meant by its
   * source, or by its name unless that or the source means the command prompt. No
   * shell is inferred exactly when there is no word for one.
   */
  lemma ShellIsInferredIff(name: string, source: string)
    requires !IsLinux(name, source)
    ensures var c := InferredCommandline(name, source);
            var prompt := Says(source, "cmd") || Says(name, "command prompt");
            && (c == Some("pwsh.exe") <==> IsPowerShell7(name, source))
            && (c == Some("powershell.exe") <==>
                  && !IsPowerShell7(name, source)
                  && (Says(source, "windowspowershell") || Says(name, "windows powershell")
                      || (Says(name, "powershell") && (Says(source, "visualstudio") || !prompt))))
            && (c == None <==>
                  && !Says(source, "powershellcore") && !Says(source, "windowspowershell") && !prompt
                  && !Says(name, "powershell"))
            && (c.Some? ==> c.value in ["pwsh.exe", "powershell.exe", "cmd.exe"])
  {
    hide Says, SameButForCase, InferredCommandline;
    SourceWords(source);
    NameWords(name);
    InferredByWords(name, source);
  }

  /** The decision on the words found. */
  lemma InferredByWords(name: string, source: string)
    ensures var n, s := ToAsciiLowercase(name), ToAsciiLowercase(source);
            var c := InferredCommandline(name, source);
            var linux := Contains(s, "wsl") || Contains(n, "ubuntu") || Contains(n, "debian");
            var seven := Contains(s, "powershellcore") || n == "powershell" || Contains(n, "powershell 7");
            var windows := Contains(s, "windowspowershell") || Contains(n, "windows powershell")
                           || (Contains(s, "visualstudio") && Contains(n, "powershell"));
            var prompt := Contains(s, "cmd") || Contains(n, "command prompt");
            linux || c == (if seven then Some("pwsh.exe") else if windows then Some("powershell.exe")
                           else if prompt then Some("cmd.exe")
                           else if Contains(n, "powershell") then Some("powershell.exe") else None)
  {
    hide Contains, ToAsciiLowercase, Trim, Quote;
  }

  lemma SourceWords(source: string)
    ensures var s := ToAsciiLowercase(source);
            && (Contains(s, "wsl") <==> Says(source, "wsl")) && (Contains(s, "cmd") <==> Says(source, "cmd"))
            && (Contains(s, "powershellcore") <==> Says(source, "powershellcore"))
            && (Contains(s, "windowspowershell") <==> Says(source, "windowspowershell"))
            && (Contains(s, "visualstudio") <==> Says(source, "visualstudio"))
  {
    hide Contains, Says, ToAsciiLowercase;
    SaysIff(source, "wsl");
    SaysIff(source, "cmd");
    SaysIff(source, "powershellcore");
    SaysIff(source, "windowspowershell");
    SaysIff(source, "visualstudio");
  }

  lemma NameWords(name: string)
    ensures var n := ToAsciiLowercase(name);
            && (Contains(n, "ubuntu") <==> Says(name, "ubuntu")) && (Contains(n, "debian") <==> Says(name, "debian"))
            && (Contains(n, "powershell 7") <==> Says(name, "powershell 7"))
            && (Contains(n, "windows powershell") <==> Says(name, "windows powershell"))
            && (Contains(n, "powershell") <==> Says(name, "powershell"))
            && (Contains(n, "command prompt") <==> Says(name, "command prompt"))
            && (n == "powershell" <==> SameButForCase(name, "powershell"))
    ensures SameButForCase(name, "powershell") || Says(name, "powershell 7") || Says(name, "windows powershell") ==>
              Says(name, "powershell")
  {
    hide Contains, Says, ToAsciiLowercase, SameButForCase;
    SaysIff(name, "ubuntu");
    SaysIff(name, "debian");
    SaysIff(name, "powershell 7");
    SaysIff(name, "windows powershell");
    SaysIff(name, "powershell");
    SaysIff(name, "command prompt");
    LowercaseIff(name, "powershell");
    if SameButForCase(name, "powershell") {
      SaysSame(name, "powershell");
    }
    if Says(name, "powershell 7") {
      SaysPart(name, "powershell 7", "", "powershell", " 7");
    }
    if Says(name, "windows powershell") {
      SaysPart(name, "windows powershell", "windows ", "powershell", "");
    }
  }
}

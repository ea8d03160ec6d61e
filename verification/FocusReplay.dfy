/**
 * What the board shows for the focused session. While a session stays focused
 * and owned, the terminal bytes sent for it since the focus end with exactly
 * the history the daemon keeps for its owner.
 */
module FocusReplay {
  import opened Wrappers
  import opened Sequences
  import opened Utf8
  import opened Codec
  import opened Payloads
  import opened TerminalRing
  import opened DaemonModel
  import opened DaemonInvariant

  /** The terminal bytes among `ms` addressed to `sid`. */
  function TerminalBytes(ms: seq<Msg>, sid: Sid): seq<byte> {
    if ms == [] then []
    else (if ms[0].cmd == Cmd.Vt100Stream && ms[0].sid == sid then ms[0].payload else []) + TerminalBytes(ms[1..], sid)
  }

  lemma {:induction false} TerminalBytesAppend(a: seq<Msg>, b: seq<Msg>, sid: Sid)
    ensures TerminalBytes(a + b, sid) == TerminalBytes(a, sid) + TerminalBytes(b, sid)
  {
    if a == [] {
      assert a + b == b;
    } else {
      assert (a + b)[1..] == a[1..] + b;
      TerminalBytesAppend(a[1..], b, sid);
    }
  }

  lemma {:induction false} NoTerminalBytes(ms: seq<Msg>, sid: Sid)
    requires forall i :: 0 <= i < |ms| ==> ms[i].cmd != Cmd.Vt100Stream || ms[i].sid != sid
    ensures TerminalBytes(ms, sid) == []
  {
    if ms != [] {
      NoTerminalBytes(ms[1..], sid);
    }
  }

  lemma OneMessage(m: Msg)
    requires m.cmd == Cmd.Vt100Stream
    ensures TerminalBytes([m], m.sid) == m.payload
  {
    assert [m][1..] == [];
  }

  lemma {:induction false} RepeatedMessages(m: Msg, n: nat)
    requires m.cmd == Cmd.Vt100Stream
    ensures TerminalBytes(Repeat(m, n), m.sid) == Copies(m.payload, n)
  {
    if n > 0 {
      assert Repeat(m, n) == Repeat(m, n - 1) + [m];
      TerminalBytesAppend(Repeat(m, n - 1), [m], m.sid);
      OneMessage(m);
      RepeatedMessages(m, n - 1);
    }
  }

  /** The agent shows on `sid`: it owns it and the board is focused there. */
  ghost predicate Shows(s: State, k: Key, sid: Sid) {
    Owns(s, k, sid) && s.focused == Some(sid)
  }

  /**
   * What ends the showing of `sid` by `k`: a focus elsewhere, the session being
   * invalidated, `sid` being granted to a pending agent, or `k` going away.
   */
  ghost predicate Disturbs(s: State, e: Event, k: Key, sid: Sid) {
    match e
    case BoardMessage(cmd, other, payload) =>
      || (cmd == Cmd.SessionFocus && other != 0 && other != sid)
      || (cmd == Cmd.SessionInvalid && other == sid)
      || (cmd == Cmd.SessionResponse && other == sid && GrantsSession(other, payload) && s.pending != [])
    case AbortSession(j) => j == k && !k.kind.Unknown?
    case PruneMissing(latest) => k in Dropped(s, latest)
    case _ => false
  }

  /**
   * What sends the whole history of `k` to `sid` again: a focus on it, or a turn
   * or a permission request of its passive owner. Only an agent attached to
   * another one has nothing to replay as long as its history is empty.
   */
  ghost predicate Replays(s: State, e: Event, k: Key, sid: Sid) {
    && k in s.agents && ReplayMessage(s.agents[k]) != []
    && match e
       case BoardMessage(cmd, other, _) => cmd == Cmd.SessionFocus && other == sid
       case AppendTurn(j, role, _, _) => j == k && role.Some? && !k.kind.Unknown? && !s.agents[k].fromLaunch
       case RequestPermission(j, _, _, _) => j == k && !k.kind.Unknown? && !s.agents[k].fromLaunch
       case _ => false
  }

  /** How the bytes shown by one step relate the history after it to the one before. */
  ghost predicate Updates(replays: bool, shown: seq<byte>, before: seq<byte>, after: seq<byte>) {
    if replays then EndsWith(shown, after) else after == TakeLast(before + shown, VT100_BUFFER_BYTES)
  }

  lemma NothingShown(s: State, k: Key)
    requires Inv(s) && k in s.agents
    ensures Updates(false, [], Snapshot(s.agents[k].ring), Snapshot(s.agents[k].ring))
  {
    assert WellFormed(s.agents[k].ring);
    assert Snapshot(s.agents[k].ring) + [] == Snapshot(s.agents[k].ring);
  }

  /** A replay ends with the agent's history, empty or not. */
  lemma ReplayMessageShows(a: Agent, sid: Sid)
    requires a.sid == Some(sid) && ReplayMessage(a) != []
    ensures EndsWith(TerminalBytes(ReplayMessage(a), sid), Snapshot(a.ring))
  {
    var h := Snapshot(a.ring);
    var m := ReplayMessage(a)[0];
    assert ReplayMessage(a) == [m];
    OneMessage(m);
    var clear := m.payload[..|m.payload| - |h|];
    assert m.payload == clear + h;
    EndsWithSuffix(clear, h);
  }

  /** Where nothing is replayed, there is no history. */
  lemma NoReplayMessage(a: Agent)
    requires a.sid.Some? && ReplayMessage(a) == []
    ensures Snapshot(a.ring) == [] && a.attached.Some?
  {
  }

  // ---- one step

  /** What a stream of `j` does to agent `k`. */
  lemma StreamedAgent(s: State, j: Key, bytes: seq<byte>, k: Key)
    requires k in s.agents
    ensures var t := Stream(s, j, bytes).next;
            && k in t.agents && t.agents[k].sid == s.agents[k].sid && t.focused == s.focused
            && (if j in s.agents && !j.kind.Unknown? && bytes != [] then
                  && t.agents[k].ring == AppendTimes(s.agents[k].ring, bytes, Visits(s, j, k))
                  && t.outbox == s.outbox + StreamMessages(s, j, bytes)
                else t.agents[k].ring == s.agents[k].ring && t.outbox == s.outbox)
  {
    hide AppendTimes, StreamMessages;
  }

  lemma StreamShows(s: State, j: Key, bytes: seq<byte>, k: Key, sid: Sid)
    requires Inv(s) && Shows(s, k, sid)
    ensures var e := Event.StreamTerminal(j, bytes);
            && Shows(Step(s, e), k, sid)
            && Updates(false, TerminalBytes(Enqueued(s, e), sid), Snapshot(s.agents[k].ring),
                       Snapshot(Step(s, e).agents[k].ring))
  {
    var e := Event.StreamTerminal(j, bytes);
    OwnerIsUnique(s, k, sid);
    assert WellFormed(s.agents[k].ring);
    StreamReacts(s, j, bytes);
    StreamedAgent(s, j, bytes, k);
    hide React, Stream, Inv, SidsUnique, Snapshot, WellFormed, TerminalBytes, Owner, AppendTimes, Visits, TakeLast;
    if j in s.agents && !j.kind.Unknown? && bytes != [] {
      var n := Visits(s, j, k);
      var m := Msg(Cmd.Vt100Stream, sid, bytes);
      assert Enqueued(s, e) == Repeat(m, n);
      RepeatedMessages(m, n);
      AppendTimesIsWindow(s.agents[k].ring, bytes, n);
    } else {
      assert Enqueued(s, e) == [];
      NothingSent(sid);
      NothingShown(s, k);
    }
  }

  lemma {:induction false} DiscoverKeepsAgents(s: State, ds: seq<Discovered>)
    ensures forall k :: k in s.agents ==> k in Discover(s, ds).agents && Discover(s, ds).agents[k] == s.agents[k]
  {
    if ds != [] {
      DiscoverKeepsAgents(s, ds[..|ds| - 1]);
    }
  }

  lemma {:induction false} IngestKeepsRings(s: State, ts: seq<DiscoveredTurn>)
    ensures Ingest(s, ts).agents.Keys == s.agents.Keys
    ensures forall k :: k in s.agents ==>
      Ingest(s, ts).agents[k].ring == s.agents[k].ring && Ingest(s, ts).agents[k].sid == s.agents[k].sid
  {
    if ts != [] {
      IngestKeepsRings(s, ts[..|ts| - 1]);
    }
  }

  /** Steps that touch neither the owner's history nor the screen. */
  lemma QuietChange(s: State, e: Event, k: Key, sid: Sid)
    requires Inv(s) && Shows(s, k, sid) && !Disturbs(s, e, k, sid)
    requires !e.StreamTerminal? && !e.AppendTurn? && !e.RequestPermission? && !e.BoardMessage?
    ensures Shows(Step(s, e), k, sid) && Step(s, e).agents[k].ring == s.agents[k].ring
  {
    if e.DiscoverSessions? {
      DiscoverSays(s, e.sessions);
      DiscoverKeepsAgents(s, e.sessions);
    } else if e.IngestTurns? {
      IngestKeepsInv(s, e.turns);
      IngestKeepsRings(s, e.turns);
    } else if e.RegisterAgent? {
      RegisterKeepsOwner(s, e.registration, k);
    } else {
      OtherChange(s, e, k, sid);
    }
  }

  lemma RegisterKeepsOwner(s: State, r: Registration, k: Key)
    requires k in s.agents
    ensures var t := Register(s, r).next;
            && k in t.agents && t.agents[k].sid == s.agents[k].sid && t.agents[k].ring == s.agents[k].ring
            && t.focused == s.focused
  {
  }

  lemma OtherChange(s: State, e: Event, k: Key, sid: Sid)
    requires Shows(s, k, sid) && !Disturbs(s, e, k, sid)
    requires e.ReportActivity? || e.UpdateTokens? || e.ResolvePermission? || e.PollPermission? || e.AbortSession?
             || e.PruneMissing? || e.Heartbeat? || e.Flush?
    ensures Shows(Step(s, e), k, sid) && Step(s, e).agents[k].ring == s.agents[k].ring
  {
  }

  lemma QuietStep(s: State, e: Event, k: Key, sid: Sid)
    requires Inv(s) && Shows(s, k, sid) && !Disturbs(s, e, k, sid)
    requires !e.StreamTerminal? && !e.AppendTurn? && !e.RequestPermission? && !e.BoardMessage?
    ensures Shows(Step(s, e), k, sid) && Step(s, e).agents[k].ring == s.agents[k].ring
    ensures TerminalBytes(Enqueued(s, e), sid) == []
  {
    QuietChange(s, e, k, sid);
    hide Step, Enqueued, Inv;
    StepUses(s, e);
    NoTerminalBytes(Enqueued(s, e), sid);
  }

  lemma QuietReply(s: State, k: Key, sid: Sid, other: Sid, payload: seq<byte>)
    requires Inv(s) && Shows(s, k, sid) && !(other == sid && GrantsSession(other, payload) && s.pending != [])
    ensures var t := HandleSessionResponse(s, other, payload).next;
            Shows(t, k, sid) && t.agents[k].ring == s.agents[k].ring
  {
    if GrantsSession(other, payload) && s.pending != [] {
      GrantFindsItsAgent(s, other, payload);
      hide HandleSessionResponse, Inv;
    }
  }

  lemma QuietDecision(s: State, k: Key, sid: Sid, other: Sid, payload: seq<byte>)
    requires Shows(s, k, sid)
    ensures var t := HandlePermissionResponse(s, other, payload).next;
            Shows(t, k, sid) && t.agents[k].ring == s.agents[k].ring
  {
    hide DropRequest, DecodePermissionResponse;
  }

  lemma QuietInvalid(s: State, k: Key, sid: Sid, other: Sid)
    requires Shows(s, k, sid) && other != sid
    ensures var t := HandleSessionInvalid(s, other).next;
            Shows(t, k, sid) && t.agents[k].ring == s.agents[k].ring
  {
  }

  lemma QuietBoardChange(s: State, e: Event, k: Key, sid: Sid)
    requires Inv(s) && Shows(s, k, sid) && !Disturbs(s, e, k, sid)
    requires e.BoardMessage? && !(e.cmd == Cmd.SessionFocus && e.sid == sid)
    ensures Shows(Step(s, e), k, sid) && Step(s, e).agents[k].ring == s.agents[k].ring
    ensures e.cmd == Cmd.SessionFocus ==> Enqueued(s, e) == []
  {
    hide React, HandleSessionResponse, HandlePermissionResponse, HandleSessionInvalid, Shows, Inv, SyncMessages,
         ReplayMessage;
    BoardReacts(s, e);
    match e.cmd
    case SessionResponse => QuietReply(s, k, sid, e.sid, e.payload);
    case PermissionRes => QuietDecision(s, k, sid, e.sid, e.payload);
    case SessionInvalid => QuietInvalid(s, k, sid, e.sid);
    case _ =>
  }

  lemma QuietBoardBytes(s: State, e: Event, sid: Sid)
    requires Inv(s) && e.BoardMessage?
    requires e.cmd == Cmd.SessionFocus ==> Enqueued(s, e) == []
    ensures TerminalBytes(Enqueued(s, e), sid) == []
  {
    hide Step, Enqueued, Inv, TerminalBytes;
    StepUses(s, e);
    NoTerminalBytes(Enqueued(s, e), sid);
  }

  lemma LiveRenderShows(s: State, j: Key, k: Key, sid: Sid)
    requires SidsUnique(s) && Shows(s, k, sid) && j in s.agents
    ensures var shown := TerminalBytes(LiveRender(s, s.agents[j]), sid);
            if j == k && !s.agents[k].fromLaunch && ReplayMessage(s.agents[k]) != []
            then EndsWith(shown, Snapshot(s.agents[k].ring))
            else shown == []
  {
    hide Snapshot, ReplayMessage, EndsWith;
    if j == k && !s.agents[k].fromLaunch && ReplayMessage(s.agents[k]) != [] {
      ReplayMessageShows(s.agents[k], sid);
    } else {
      assert LiveRender(s, s.agents[j]) == [] by {
        if s.agents[j].sid == s.focused {
          assert Owns(s, j, sid);
        }
      }
      NothingSent(sid);
    }
  }

  /** A live render depends on neither turns nor permissions. */
  lemma SameRender(s: State, a: Agent, b: Agent)
    requires a == b.(turns := a.turns, pendingPermissions := a.pendingPermissions,
                     resolvedPermissions := a.resolvedPermissions)
    ensures LiveRender(s, a) == LiveRender(s, b)
  {
    assert PassivePlaceholder(a) == PassivePlaceholder(b);
    hide PassivePlaceholder, Snapshot;
  }

  lemma TurnChange(s: State, e: Event, k: Key, sid: Sid)
    requires Inv(s) && Shows(s, k, sid) && e.AppendTurn?
    ensures Shows(Step(s, e), k, sid) && Step(s, e).agents[k].ring == s.agents[k].ring
    ensures Enqueued(s, e) == if e.role.Some? && !e.key.kind.Unknown? && e.key in s.agents
                              then [] + LiveRender(s, s.agents[e.key]) else []
  {
    hide LiveRender;
    if e.role.Some? && e.key in s.agents {
      SameRender(s, WithTurn(s.agents[e.key], e.role.value, e.text, e.tsMs), s.agents[e.key]);
    }
  }

  lemma RequestChange(s: State, e: Event, k: Key, sid: Sid) returns (asked: seq<Msg>)
    requires Inv(s) && Shows(s, k, sid) && e.RequestPermission?
    ensures Shows(Step(s, e), k, sid) && Step(s, e).agents[k].ring == s.agents[k].ring
    ensures Uses(asked, {Cmd.PermissionReq})
    ensures Enqueued(s, e) == if !e.key.kind.Unknown? && e.key in s.agents
                              then asked + LiveRender(s, s.agents[e.key]) else []
  {
    hide PermissionMessage, LiveRender;
    asked := [];
    if e.key in s.agents {
      var a := WithRequest(s.agents[e.key], e.reqId, e.tool, e.args);
      asked := PermissionMessage(a, a.pendingPermissions[|a.pendingPermissions| - 1]);
      PermissionMessageUses(a, a.pendingPermissions[|a.pendingPermissions| - 1]);
      SameRender(s, a, s.agents[e.key]);
      var t := Step(s, e);
      assert t.outbox == s.outbox || t.outbox == s.outbox + (asked + LiveRender(s, a));
    }
  }

  lemma PermissionMessageUses(a: Agent, p: Permission)
    ensures Uses(PermissionMessage(a, p), {Cmd.PermissionReq})
  {
  }

  lemma RenderBytes(s: State, asked: seq<Msg>, j: Key, k: Key, sid: Sid)
    requires SidsUnique(s) && Shows(s, k, sid) && j in s.agents && Uses(asked, {Cmd.PermissionReq})
    ensures var shown := TerminalBytes(asked + LiveRender(s, s.agents[j]), sid);
            if j == k && !s.agents[k].fromLaunch && ReplayMessage(s.agents[k]) != []
            then EndsWith(shown, Snapshot(s.agents[k].ring))
            else shown == []
  {
    hide ReplayMessage, LiveRender, Snapshot;
    LiveRenderShows(s, j, k, sid);
    NoTerminalBytes(asked, sid);
    TerminalBytesAppend(asked, LiveRender(s, s.agents[j]), sid);
    assert [] + TerminalBytes(LiveRender(s, s.agents[j]), sid) == TerminalBytes(LiveRender(s, s.agents[j]), sid);
  }

  lemma RenderStep(s: State, e: Event, k: Key, sid: Sid)
    requires Inv(s) && Shows(s, k, sid) && (e.AppendTurn? || e.RequestPermission?)
    ensures Shows(Step(s, e), k, sid) && Step(s, e).agents[k].ring == s.agents[k].ring
    ensures Updates(Replays(s, e, k, sid), TerminalBytes(Enqueued(s, e), sid),
                    Snapshot(s.agents[k].ring), Snapshot(s.agents[k].ring))
  {
    var asked: seq<Msg> := [];
    if e.AppendTurn? {
      TurnChange(s, e, k, sid);
    } else {
      asked := RequestChange(s, e, k, sid);
    }
    NothingSent(sid);
    NothingShown(s, k);
    hide Step, Enqueued, LiveRender, Snapshot, ReplayMessage, TakeLast, EndsWith;
    if e.key in s.agents {
      RenderBytes(s, asked, e.key, k, sid);
    }
  }

  lemma FocusStep(s: State, sid: Sid, payload: seq<byte>, k: Key)
    requires Inv(s) && sid != 0 && Owns(s, k, sid)
    ensures var e := Event.BoardMessage(Cmd.SessionFocus, sid, payload);
            && Shows(Step(s, e), k, sid) && Step(s, e).agents == s.agents
            && Enqueued(s, e) == ReplayMessage(s.agents[k])
            && Updates(Replays(s, e, k, sid), TerminalBytes(Enqueued(s, e), sid),
                       Snapshot(s.agents[k].ring), Snapshot(s.agents[k].ring))
  {
    var e := Event.BoardMessage(Cmd.SessionFocus, sid, payload);
    OwnerIsUnique(s, k, sid);
    assert Enqueued(s, e) == ReplayMessage(s.agents[k]);
    if ReplayMessage(s.agents[k]) == [] {
      NothingShown(s, k);
    } else {
      ReplayMessageShows(s.agents[k], sid);
    }
  }

  predicate Surrounds(text: string, front: string, part: string, back: string) {
    text == front + part + back
  }

  ghost predicate Mentions(text: string, part: string) {
    exists front, back :: Surrounds(text, front, part, back)
  }

  lemma SurroundedByParts(front: string, part: string, b1: string, b2: string, b3: string, b4: string, b5: string,
                          b6: string, b7: string, b8: string, b9: string, b10: string)
    ensures Mentions(front + part + b1 + b2 + b3 + b4 + b5 + b6 + b7 + b8 + b9 + b10, part)
  {
    assert Surrounds(front + part + b1 + b2 + b3 + b4 + b5 + b6 + b7 + b8 + b9 + b10, front, part,
                     b1 + b2 + b3 + b4 + b5 + b6 + b7 + b8 + b9 + b10);
  }

  lemma PlaceholderNames(a: Agent)
    ensures Mentions(PassivePlaceholder(a), if a.name == "" then a.id else a.name)
  {
    hide KindLabel, Mentions;
    var reset := "\U{1B}[0m";
    var dim := "\U{1B}[90m";
    var front := "\U{1B}[1m\U{1B}[36m" + KindLabel(a.kind) + reset + "  \U{1B}[33m";
    var name := if a.name == "" then a.id else a.name;
    var line1, line2 := "No live terminal capture for this passive session.",
      "Open a Vibe-captured Windows Terminal profile for 1:1 replay.";
    SurroundedByParts(front, name, reset, "\r\n", dim, line1, reset, "\r\n", dim, line2, reset, "\r\n");
    assert PassivePlaceholder(a) ==
      front + name + reset + "\r\n" + dim + line1 + reset + "\r\n" + dim + line2 + reset + "\r\n";
  }

  lemma MentionsMore(text: string, part: string, more: string)
    requires Mentions(text, part)
    ensures Mentions(text + more, part)
  {
    var front, back :| Surrounds(text, front, part, back);
    assert text + more == front + part + (back + more);
    assert Surrounds(text + more, front, part, back + more);
  }

  lemma PlaceholderNamesKind(a: Agent)
    ensures Mentions(PassivePlaceholder(a), KindLabel(a.kind))
  {
    hide KindLabel, Mentions;
    var reset := "\U{1B}[0m";
    var dim := "\U{1B}[90m";
    var front, gap := "\U{1B}[1m\U{1B}[36m", "  \U{1B}[33m";
    var kind, name := KindLabel(a.kind), if a.name == "" then a.id else a.name;
    var line1, line2 := "No live terminal capture for this passive session.",
      "Open a Vibe-captured Windows Terminal profile for 1:1 replay.";
    SurroundedByParts(front, kind, reset, gap, name, reset, "\r\n", dim, line1, reset, "\r\n", dim);
    var most := front + kind + reset + gap + name + reset + "\r\n" + dim + line1 + reset + "\r\n" + dim;
    MentionsMore(most, kind, line2);
    MentionsMore(most + line2, kind, reset);
    MentionsMore(most + line2 + reset, kind, "\r\n");
  }

  /** The screen is cleared, and then shows the history, nothing, or a text that names the agent and its kind. */
  ghost predicate Greets(a: Agent, shown: seq<byte>) {
    var history, clear := Snapshot(a.ring), [0x1B, 0x5B, 0x32, 0x4A, 0x1B, 0x5B, 0x48];
    && (history != [] || (a.attached.None? && a.fromLaunch) ==> shown == clear + history)
    && (history == [] && a.attached.Some? ==> shown == [])
    && (history == [] && a.attached.None? && !a.fromLaunch ==>
          exists text :: shown == clear + Encode(text)
            && Mentions(text, if a.name == "" then a.id else a.name)
            && Mentions(text, match a.kind case Claude => "claude" case Codex => "codex"
                              case Terminal => "terminal" case Unknown => "unknown"))
  }

  lemma ReplayGreets(a: Agent, sid: Sid)
    requires a.sid == Some(sid)
    ensures Greets(a, TerminalBytes(ReplayMessage(a), sid))
  {
    hide Snapshot, PassivePlaceholder, Encode, Mentions, TerminalBytes;
    PlaceholderNames(a);
    PlaceholderNamesKind(a);
    NothingSent(sid);
    if ReplayMessage(a) != [] {
      OneMessage(ReplayMessage(a)[0]);
      assert ReplayMessage(a) == [ReplayMessage(a)[0]];
      assert SCREEN_CLEAR + [] == SCREEN_CLEAR;
    }
  }

  /**
   * A focus clears the screen, and then shows the history; without one, a launched
   * agent's screen stays clear, and a passive agent's shows a text that names it.
   * Only an agent attached to another one shows nothing as long as it has none.
   */
  lemma FocusClearsScreen(s: State, sid: Sid, payload: seq<byte>, k: Key)
    requires Inv(s) && sid != 0 && Owns(s, k, sid)
    ensures Greets(s.agents[k], TerminalBytes(Enqueued(s, Event.BoardMessage(Cmd.SessionFocus, sid, payload)), sid))
  {
    hide Step, Enqueued, Inv, Greets, ReplayMessage, TerminalBytes;
    FocusStep(s, sid, payload, k);
    ReplayGreets(s.agents[k], sid);
  }

  lemma ShowingStep(s: State, e: Event, k: Key, sid: Sid)
    requires Inv(s) && Shows(s, k, sid) && !Disturbs(s, e, k, sid)
    ensures Shows(Step(s, e), k, sid)
    ensures Updates(Replays(s, e, k, sid), TerminalBytes(Enqueued(s, e), sid),
                    Snapshot(s.agents[k].ring), Snapshot(Step(s, e).agents[k].ring))
  {
    NothingShown(s, k);
    if e.StreamTerminal? {
      StreamShows(s, e.key, e.bytes, k, sid);
    } else if e.AppendTurn? || e.RequestPermission? {
      RenderStep(s, e, k, sid);
    } else if e.BoardMessage? && e.cmd == Cmd.SessionFocus && e.sid == sid {
      FocusStep(s, sid, e.payload, k);
    } else if e.BoardMessage? {
      QuietBoardChange(s, e, k, sid);
      QuietBoardBytes(s, e, sid);
    } else {
      QuietStep(s, e, k, sid);
    }
    hide Step, Enqueued, Snapshot, ReplayMessage, TakeLast, EndsWith, Inv;
  }

  // ---- whole runs

  ghost predicate Undisturbed(s: State, es: seq<Event>, k: Key, sid: Sid) {
    forall i :: 0 <= i < |es| ==> !Disturbs(Run(s, es[..i]), es[i], k, sid)
  }

  lemma NothingSent(sid: Sid)
    ensures TerminalBytes([], sid) == []
  {
  }

  ghost predicate Replayed(s: State, es: seq<Event>, k: Key, sid: Sid) {
    exists i :: 0 <= i < |es| && Replays(Run(s, es[..i]), es[i], k, sid)
  }

  lemma SnocRun(s: State, es: seq<Event>, k: Key, sid: Sid)
    requires es != []
    ensures var init, e := es[..|es| - 1], es[|es| - 1];
            && (Replayed(s, es, k, sid) <==> Replayed(s, init, k, sid) || Replays(Run(s, init), e, k, sid))
            && (Undisturbed(s, es, k, sid) ==>
                  Undisturbed(s, init, k, sid) && !Disturbs(Run(s, init), e, k, sid))
  {
    hide Replays, Disturbs, Run;
    var init, e := es[..|es| - 1], es[|es| - 1];
    assert forall i :: 0 <= i < |init| ==> init[..i] == es[..i] && init[i] == es[i];
    if Replayed(s, init, k, sid) {
      var i :| 0 <= i < |init| && Replays(Run(s, init[..i]), init[i], k, sid);
      assert Replays(Run(s, es[..i]), es[i], k, sid);
    }
  }

  /** One more step after bytes `sent` since the history was `first`. */
  lemma UpdatesOnce(replayed: bool, first: seq<byte>, sent: seq<byte>, before: seq<byte>,
                    replays: bool, shown: seq<byte>, after: seq<byte>)
    requires Updates(replayed, sent, first, before) && Updates(replays, shown, before, after)
    ensures Updates(replayed || replays, sent + shown, first, after)
  {
    if replays {
      var clear := shown[..|shown| - |after|];
      assert sent + shown == (sent + clear) + after by {
        assert shown == clear + after;
      }
      EndsWithSuffix(sent + clear, after);
    } else if replayed {
      EndsWithWindow(sent, before, shown, VT100_BUFFER_BYTES);
    } else {
      TakeLastTwice(first + sent, shown, VT100_BUFFER_BYTES);
      assert first + sent + shown == first + (sent + shown);
    }
  }

  /**
   * While `k` shows on `sid` undisturbed: with a replay, the bytes sent end with
   * its history; without one, its history is the window of what it was and the
   * bytes sent.
   */
  lemma {:induction false} ShowingRun(s: State, es: seq<Event>, k: Key, sid: Sid)
    requires Inv(s) && Shows(s, k, sid) && Undisturbed(s, es, k, sid)
    ensures Shows(Run(s, es), k, sid)
    ensures Updates(Replayed(s, es, k, sid), TerminalBytes(Log(s, es), sid),
                    Snapshot(s.agents[k].ring), Snapshot(Run(s, es).agents[k].ring))
  {
    hide Step, Disturbs, Replays, Inv, TerminalBytes, Updates, Snapshot, Enqueued, Undisturbed;
    if es == [] {
      NothingSent(sid);
      NothingShown(s, k);
    } else {
      hide Replayed;
      var init, e := es[..|es| - 1], es[|es| - 1];
      SnocRun(s, es, k, sid);
      ShowingRun(s, init, k, sid);
      RunKeepsInv(s, init);
      var t := Run(s, init);
      ShowingStep(t, e, k, sid);
      TerminalBytesAppend(Log(s, init), Enqueued(t, e), sid);
      UpdatesOnce(Replayed(s, init, k, sid), Snapshot(s.agents[k].ring), TerminalBytes(Log(s, init), sid),
                  Snapshot(t.agents[k].ring), Replays(t, e, k, sid), TerminalBytes(Enqueued(t, e), sid),
                  Snapshot(Step(t, e).agents[k].ring));
    }
  }

  /** Bytes that end with the history go on doing so. */
  lemma ScreenGoesOn(sent: seq<byte>, replayed: bool, shown: seq<byte>, before: seq<byte>, after: seq<byte>)
    requires EndsWith(sent, before) && Updates(replayed, shown, before, after)
    ensures EndsWith(sent + shown, after)
  {
    if replayed {
      var clear := shown[..|shown| - |after|];
      assert sent + shown == (sent + clear) + after by {
        assert shown == clear + after;
      }
      EndsWithSuffix(sent + clear, after);
    } else {
      EndsWithWindow(sent, before, shown, VT100_BUFFER_BYTES);
    }
  }

  lemma FocusShows(s: State, sid: Sid, payload: seq<byte>, k: Key)
    requires Inv(s) && sid != 0 && Owns(s, k, sid)
    ensures var e := Event.BoardMessage(Cmd.SessionFocus, sid, payload);
            EndsWith(TerminalBytes(Enqueued(s, e), sid), Snapshot(s.agents[k].ring))
  {
    FocusStep(s, sid, payload, k);
    if ReplayMessage(s.agents[k]) == [] {
      NoReplayMessage(s.agents[k]);
    }
    hide Step, Enqueued, Inv, Snapshot, ReplayMessage;
  }

  /**
   * From a board focus on an owned session, for as long as nothing in `Disturbs`
   * happens, the terminal bytes enqueued for it since the focus end with the
   * owner's history, whatever streams, registrations, turns, permissions, grants
   * to others, discovery polls and flushes come in between.
   */
  lemma ScreenEndsWithHistory(s: State, sid: Sid, payload: seq<byte>, k: Key, es: seq<Event>)
    requires Inv(s) && sid != 0 && Owns(s, k, sid)
    requires Undisturbed(Step(s, Event.BoardMessage(Cmd.SessionFocus, sid, payload)), es, k, sid)
    ensures var focus := Event.BoardMessage(Cmd.SessionFocus, sid, payload);
            var focused := Step(s, focus);
            var t := Run(focused, es);
            && Shows(t, k, sid)
            && EndsWith(TerminalBytes(Enqueued(s, focus) + Log(focused, es), sid), Snapshot(t.agents[k].ring))
  {
    var focus := Event.BoardMessage(Cmd.SessionFocus, sid, payload);
    FocusStep(s, sid, payload, k);
    FocusShows(s, sid, payload, k);
    StepKeepsInv(s, focus);
    hide Step, Enqueued, Inv, Snapshot, TerminalBytes, Updates, Undisturbed;
    var focused := Step(s, focus);
    ShowingRun(focused, es, k, sid);
    TerminalBytesAppend(Enqueued(s, focus), Log(focused, es), sid);
    ScreenGoesOn(TerminalBytes(Enqueued(s, focus), sid), Replayed(focused, es, k, sid),
                 TerminalBytes(Log(focused, es), sid), Snapshot(s.agents[k].ring),
                 Snapshot(Run(focused, es).agents[k].ring));
  }

  /** Bytes sent while the history was kept as a window of `first` and them end with it only when they cover it. */
  lemma WindowCoveredIff(first: seq<byte>, sent: seq<byte>)
    requires |first| <= VT100_BUFFER_BYTES
    ensures EndsWith(sent, TakeLast(first + sent, VT100_BUFFER_BYTES))
            <==> first == [] || |sent| >= VT100_BUFFER_BYTES
  {
    var after := TakeLast(first + sent, VT100_BUFFER_BYTES);
    if first == [] {
      assert first + sent == sent;
    }
  }

  lemma RebindingStep(s: State, sid: Sid, payload: seq<byte>)
    requires Inv(s) && s.focused == Some(sid) && GrantsSession(sid, payload) && s.pending != []
    ensures var e := Event.BoardMessage(Cmd.SessionResponse, sid, payload);
            var k := s.pending[0];
            && Inv(Step(s, e)) && Shows(Step(s, e), k, sid)
            && k in s.agents && Step(s, e).agents[k].ring == s.agents[k].ring
            && TerminalBytes(Enqueued(s, e), sid) == []
  {
    hide React, HandleSessionResponse, Inv, Enqueued, TerminalBytes;
    var e := Event.BoardMessage(Cmd.SessionResponse, sid, payload);
    StepKeepsInv(s, e);
    GrantFindsItsAgent(s, sid, payload);
    GrantedAgent(s, sid, payload);
    QuietBoardBytes(s, e, sid);
    BoardReacts(s, e);
    assert Owns(Step(s, e), s.pending[0], sid);
  }

  /** A grant changes nothing of the agent it binds but its sid. */
  lemma GrantedAgent(s: State, sid: Sid, payload: seq<byte>)
    requires GrantsSession(sid, payload) && s.pending != [] && s.pending[0] in s.agents
    ensures var t := HandleSessionResponse(s, sid, payload).next;
            var k := s.pending[0];
            k in t.agents && t.agents[k] == s.agents[k].(sid := Some(sid)) && t.agents.Keys == s.agents.Keys
  {
    hide SyncMessages;
  }

  /**
   * Why a rebinding must be excluded: a grant of the focused sid, owned by
   * another agent or by none, gives it to the pending agent and keeps the focus,
   * but replays nothing for the new owner. The bytes sent since then end with its
   * history exactly when a replay came after all, when it had no history to show,
   * or when as many bytes came as a history can hold.
   */
  lemma GrantShowsHistoryIff(s: State, sid: Sid, payload: seq<byte>, es: seq<Event>)
    requires Inv(s) && s.focused == Some(sid) && GrantsSession(sid, payload) && s.pending != []
    requires Undisturbed(Step(s, Event.BoardMessage(Cmd.SessionResponse, sid, payload)), es, s.pending[0], sid)
    ensures var grant := Event.BoardMessage(Cmd.SessionResponse, sid, payload);
            var k := s.pending[0];
            var granted := Step(s, grant);
            var t := Run(granted, es);
            var sent := TerminalBytes(Enqueued(s, grant) + Log(granted, es), sid);
            && k in s.agents && Shows(t, k, sid)
            && (EndsWith(sent, Snapshot(t.agents[k].ring)) <==>
                  || Replayed(granted, es, k, sid)
                  || Snapshot(s.agents[k].ring) == []
                  || |sent| >= 65536)
  {
    var grant := Event.BoardMessage(Cmd.SessionResponse, sid, payload);
    var k := s.pending[0];
    RebindingStep(s, sid, payload);
    assert WellFormed(s.agents[k].ring);
    hide Step, Enqueued, Inv, Snapshot, TerminalBytes, Undisturbed, EndsWith, TakeLast;
    var granted := Step(s, grant);
    ShowingRun(granted, es, k, sid);
    TerminalBytesAppend(Enqueued(s, grant), Log(granted, es), sid);
    var sent := TerminalBytes(Log(granted, es), sid);
    assert [] + sent == sent;
    WindowCoveredIff(Snapshot(s.agents[k].ring), sent);
  }

  /** A small run in which that happens. */
  const NEWCOMER: Registration := Registration(Claude, "a", "", "", Running, None, None, false)
  const NEWCOMER_KEY: Key := Key(Claude, "a")

  lemma NewcomerAsks(r: Registration)
    requires r == NEWCOMER || r == NEWCOMER.(parentKind := Some(Claude), parentId := Some("a"))
    ensures var e := RegisterAgent(r);
            var t := Step(INITIAL, e);
            && t.agents == map[NEWCOMER_KEY := FreshAgent(r)] && t.pending == [NEWCOMER_KEY] && t.focused == None
            && Enqueued(INITIAL, e) == [HintMessage(FreshAgent(r))]
            && FreshAgent(r).ring == EMPTY_RING && FreshAgent(r).sid == None
            && FreshAgent(r).attached == if r == NEWCOMER then None else Some(NEWCOMER_KEY)
  {
    hide HintMessage;
    assert !IsBlank("a") by {
      assert !IsWhitespace("a"[0]);
    }
  }

  /** While nothing is focused, a stream only adds to the histories. */
  lemma StreamUnseen(s: State, k: Key, bytes: seq<byte>)
    requires k in s.agents && !k.kind.Unknown? && s.agents[k].attached == None && s.focused == None && bytes != []
    ensures var e := StreamTerminal(k, bytes);
            var t := Step(s, e);
            && t.agents.Keys == s.agents.Keys && t.pending == s.pending && t.focused == None
            && (forall j :: j in s.agents ==> t.agents[j].sid == s.agents[j].sid)
            && t.agents[k].ring == AppendTimes(s.agents[k].ring, bytes, 1)
            && Enqueued(s, e) == []
  {
    hide AppendTimes;
  }

  lemma FocusUnowned(s: State, sid: Sid, payload: seq<byte>)
    requires sid != 0 && forall j :: !Owns(s, j, sid)
    ensures var e := BoardMessage(Cmd.SessionFocus, sid, payload);
            Step(s, e) == s.(focused := Some(sid)) && Enqueued(s, e) == []
  {
  }

  /** The registered agent asks for a session and receives a byte; the board focuses a sid nobody owns. */
  lemma FocusBeforeGrant()
    ensures var es := [RegisterAgent(NEWCOMER), StreamTerminal(NEWCOMER_KEY, [120]),
                       BoardMessage(Cmd.SessionFocus, 1, [])];
            var s := Run(INITIAL, es);
            && Inv(s) && s.focused == Some(1) && s.pending == [NEWCOMER_KEY]
            && NEWCOMER_KEY in s.agents && Snapshot(s.agents[NEWCOMER_KEY].ring) == [120]
            && TerminalBytes(Log(INITIAL, es), 1) == []
  {
    hide Step, Enqueued, FreshAgent, HintMessage, AppendTimes, Snapshot, Inv, TerminalBytes, Run, Log;
    var register, stream := RegisterAgent(NEWCOMER), StreamTerminal(NEWCOMER_KEY, [120]);
    var focus := BoardMessage(Cmd.SessionFocus, 1, []);
    NewcomerAsks(NEWCOMER);
    StreamUnseen(Step(INITIAL, register), NEWCOMER_KEY, [120]);
    FocusUnowned(Step(Step(INITIAL, register), stream), 1, []);
    RunOfThree(INITIAL, register, stream, focus);
    InitialInv();
    RunKeepsInv(INITIAL, [register, stream, focus]);
    OneByteRing();
    HintIsNoTerminal(FreshAgent(NEWCOMER));
    var hint := [HintMessage(FreshAgent(NEWCOMER))];
    assert hint + ([] + []) == hint;
  }

  lemma OneByteRing()
    ensures Snapshot(AppendTimes(EMPTY_RING, [120], 1)) == [120]
  {
    AppendTimesIsWindow(EMPTY_RING, [120], 1);
    assert Copies([120], 0) == [] && Copies([120], 1) == [120];
  }

  lemma HintIsNoTerminal(a: Agent)
    ensures TerminalBytes([HintMessage(a)], 1) == []
  {
    NoTerminalBytes([HintMessage(a)], 1);
  }

  lemma RunOfThree(s: State, a: Event, b: Event, c: Event)
    ensures Run(s, [a, b, c]) == Step(Step(Step(s, a), b), c)
    ensures Log(s, [a, b, c]) == Enqueued(s, a) + (Enqueued(Step(s, a), b) + Enqueued(Step(Step(s, a), b), c))
  {
    hide Step, Enqueued;
    assert [a] + [b, c] == [a, b, c] && [b] + [c] == [b, c] && [c] + [] == [c];
    RunCons(s, a, [b, c]);
    RunCons(Step(s, a), b, [c]);
    RunCons(Step(Step(s, a), b), c, []);
  }

  /**
   * The grant of that sid then binds the agent where the board is focused, and
   * the byte it received is never shown.
   */
  lemma GrantLosesHistory()
    ensures var es := [RegisterAgent(NEWCOMER), StreamTerminal(NEWCOMER_KEY, [120]),
                       BoardMessage(Cmd.SessionFocus, 1, []), BoardMessage(Cmd.SessionResponse, 1, [])];
            var t := Run(INITIAL, es);
            && Shows(t, NEWCOMER_KEY, 1)
            && Snapshot(t.agents[NEWCOMER_KEY].ring) == [120]
            && TerminalBytes(Log(INITIAL, es), 1) == []
  {
    hide Step, Enqueued, Snapshot, TerminalBytes, Inv;
    var es := [RegisterAgent(NEWCOMER), StreamTerminal(NEWCOMER_KEY, [120]),
               BoardMessage(Cmd.SessionFocus, 1, []), BoardMessage(Cmd.SessionResponse, 1, [])];
    FocusBeforeGrant();
    assert es[..3] == [RegisterAgent(NEWCOMER), StreamTerminal(NEWCOMER_KEY, [120]),
                       BoardMessage(Cmd.SessionFocus, 1, [])];
    RebindingStep(Run(INITIAL, es[..3]), 1, []);
    TerminalBytesAppend(Log(INITIAL, es[..3]), Enqueued(Run(INITIAL, es[..3]), es[3]), 1);
  }

  // ---- the history is the window of everything received

  /** The bytes an event brings agent `k`: its own output, and that of the agent it is attached to. */
  function Arriving(s: State, e: Event, k: Key): seq<byte> {
    if e.StreamTerminal? && !e.key.kind.Unknown? && e.key in s.agents && k in s.agents then
      (if e.key == k then e.bytes else []) + (if s.agents[k].attached == Some(e.key) then e.bytes else [])
    else []
  }

  lemma ArrivingCopies(s: State, j: Key, bytes: seq<byte>, k: Key)
    requires k in s.agents
    ensures Arriving(s, Event.StreamTerminal(j, bytes), k) ==
              if !j.kind.Unknown? && j in s.agents then Copies(bytes, Visits(s, j, k)) else []
  {
    assert Copies(bytes, 0) == [] && Copies(bytes, 1) == bytes && Copies(bytes, 2) == bytes + bytes;
    assert bytes + [] == bytes;
  }

  /** All bytes agent `k` received since it was last registered anew. */
  ghost function Received(s: State, es: seq<Event>, k: Key): seq<byte> {
    if es == [] then []
    else
      var init, e := es[..|es| - 1], es[|es| - 1];
      if k in Run(s, init).agents then Received(s, init, k) + Arriving(Run(s, init), e, k) else []
  }

  lemma {:induction false} NoCopies(times: nat)
    ensures Copies([], times) == []
  {
    if times > 0 {
      NoCopies(times - 1);
    }
  }

  lemma StreamRing(s: State, j: Key, bytes: seq<byte>, k: Key)
    requires Inv(s) && k in s.agents
    ensures k in Stream(s, j, bytes).next.agents
    ensures Snapshot(Stream(s, j, bytes).next.agents[k].ring)
         == TakeLast(Snapshot(s.agents[k].ring) + Arriving(s, Event.StreamTerminal(j, bytes), k), VT100_BUFFER_BYTES)
  {
    var h := Snapshot(s.agents[k].ring);
    assert WellFormed(s.agents[k].ring);
    StreamedAgent(s, j, bytes, k);
    ArrivingCopies(s, j, bytes, k);
    hide Stream, Snapshot, AppendTimes, Visits, Inv;
    AppendTimesIsWindow(s.agents[k].ring, bytes, Visits(s, j, k));
    NoCopies(Visits(s, j, k));
    assert h + [] == h;
  }

  /** A new agent starts with an empty history; a known one gains what arrives. */
  lemma RingStep(s: State, e: Event, k: Key)
    requires Inv(s) && k in Step(s, e).agents
    ensures k !in s.agents ==> Step(s, e).agents[k].ring == EMPTY_RING
    ensures k in s.agents ==>
      Snapshot(Step(s, e).agents[k].ring) ==
        TakeLast(Snapshot(s.agents[k].ring) + Arriving(s, e, k), VT100_BUFFER_BYTES)
  {
    hide Stream, Discover, TakeLast, Snapshot, Inv;
    if e.StreamTerminal? {
      StreamKeys(s, e.key, e.bytes);
      if k in s.agents {
        StreamRing(s, e.key, e.bytes, k);
      }
    } else if e.DiscoverSessions? {
      DiscoverRing(s, e.sessions, k);
    } else {
      OtherRings(s, e, k);
    }
  }

  lemma StreamKeys(s: State, j: Key, bytes: seq<byte>)
    ensures Stream(s, j, bytes).next.agents.Keys == s.agents.Keys
  {
  }

  lemma {:induction false} DiscoverRing(s: State, ds: seq<Discovered>, k: Key)
    requires Inv(s) && k in Discover(s, ds).agents
    ensures k !in s.agents ==> Discover(s, ds).agents[k].ring == EMPTY_RING
    ensures k in s.agents ==> Snapshot(Discover(s, ds).agents[k].ring)
                              == TakeLast(Snapshot(s.agents[k].ring) + [], VT100_BUFFER_BYTES)
  {
    DiscoverKeepsAgents(s, ds);
    if k in s.agents {
      assert WellFormed(s.agents[k].ring);
      assert Snapshot(s.agents[k].ring) + [] == Snapshot(s.agents[k].ring);
    } else if ds != [] {
      if k in Discover(s, ds[..|ds| - 1]).agents {
        DiscoverRing(s, ds[..|ds| - 1], k);
      }
    }
  }

  lemma OtherRingsKept(s: State, e: Event, k: Key)
    requires k in Step(s, e).agents && !e.StreamTerminal? && !e.DiscoverSessions?
    ensures k !in s.agents ==> Step(s, e).agents[k].ring == EMPTY_RING
    ensures k in s.agents ==> Step(s, e).agents[k].ring == s.agents[k].ring
  {
    if e.IngestTurns? {
      IngestKeepsRings(s, e.turns);
    } else if e.BoardMessage? {
      BoardKeepsRings(s, e, k);
    } else if e.RegisterAgent? {
      RegisterRings(s, e, k);
    } else {
      QuietRings(s, e, k);
    }
    hide Register, Activity, Tokens, AddTurn, AskPermission, Resolve, Poll, Stream, Abort, Discover, Prune, Board, Beat,
         FlushOutbox;
  }

  lemma RegisterRings(s: State, e: Event, k: Key)
    requires k in Step(s, e).agents && e.RegisterAgent?
    ensures k !in s.agents ==> Step(s, e).agents[k].ring == EMPTY_RING
    ensures k in s.agents ==> Step(s, e).agents[k].ring == s.agents[k].ring
  {
    hide SyncMessages, HintMessage;
    if k in s.agents {
      RegisterKeepsOwner(s, e.registration, k);
    }
  }

  lemma QuietRings(s: State, e: Event, k: Key)
    requires k in Step(s, e).agents
    requires e.ReportActivity? || e.UpdateTokens? || e.AppendTurn? || e.RequestPermission? || e.ResolvePermission?
             || e.PollPermission? || e.AbortSession? || e.PruneMissing? || e.Heartbeat? || e.Flush?
    ensures k in s.agents && Step(s, e).agents[k].ring == s.agents[k].ring
  {
    hide SyncMessages, ReplayMessage, LiveRender, FramesOf, Unsent, Owner, Register, Stream, Discover, Ingest, Board,
         StatusMessage, TokenMessage, PermissionMessage, HasRequest, DropRequest, IsBlank, Without, WithoutAll, Dropped,
         TakeLast;
  }

  lemma BoardKeepsRings(s: State, e: Event, k: Key)
    requires e.BoardMessage?
    ensures Step(s, e).agents.Keys == s.agents.Keys
    ensures k in s.agents ==> Step(s, e).agents[k].ring == s.agents[k].ring
  {
    hide React, SyncMessages, ReplayMessage, DropRequest, DecodePermissionResponse;
    BoardReacts(s, e);
  }

  lemma OtherRings(s: State, e: Event, k: Key)
    requires Inv(s) && k in Step(s, e).agents && !e.StreamTerminal? && !e.DiscoverSessions?
    ensures k !in s.agents ==> Step(s, e).agents[k].ring == EMPTY_RING
    ensures k in s.agents ==> Snapshot(Step(s, e).agents[k].ring)
                              == TakeLast(Snapshot(s.agents[k].ring) + [], VT100_BUFFER_BYTES)
  {
    hide Step;
    OtherRingsKept(s, e, k);
    if k in s.agents {
      assert WellFormed(s.agents[k].ring);
      assert Snapshot(s.agents[k].ring) + [] == Snapshot(s.agents[k].ring);
    }
  }

  /**
   * In every reachable state an agent's history is the last 65536 of all bytes
   * sent to it or mirrored to it since it was registered.
   */
  lemma {:induction false} HistoryIsWindowOfReceived(es: seq<Event>, k: Key)
    requires k in Run(INITIAL, es).agents
    ensures Snapshot(Run(INITIAL, es).agents[k].ring) == TakeLast(Received(INITIAL, es, k), 65536)
  {
    if es != [] {
      var init, e := es[..|es| - 1], es[|es| - 1];
      var s := Run(INITIAL, init);
      RunKeepsInv(INITIAL, init);
      RingStep(s, e, k);
      if k in s.agents {
        HistoryIsWindowOfReceived(init, k);
        TakeLastTwice(Received(INITIAL, init, k), Arriving(s, e, k), VT100_BUFFER_BYTES);
      }
    }
  }

  /** An agent attached to itself, as a registration naming itself as parent makes it. */
  ghost predicate SelfAttached(s: State, k: Key) {
    k in s.agents && s.agents[k].attached == Some(k)
  }

  /**
   * One `terminal.stream` enqueues at most one message unless it comes from an
   * agent attached to itself that is the focused one, which gets it twice.
   */
  lemma StreamSendsOnceIff(s: State, k: Key, bytes: seq<byte>)
    requires Inv(s) && k in s.agents && !k.kind.Unknown? && bytes != []
    ensures var n := |Enqueued(s, Event.StreamTerminal(k, bytes))|;
            && n <= 2
            && (n <= 1 <==> !(SelfAttached(s, k) && s.agents[k].sid.Some? && s.agents[k].sid == s.focused))
  {
    var e := Event.StreamTerminal(k, bytes);
    assert Enqueued(s, e) == StreamMessages(s, k, bytes);
    if s.agents[k].sid.Some? && s.agents[k].sid == s.focused {
      OwnerIsUnique(s, k, s.focused.value);
    }
  }

  lemma FocusKeepsAgents(s: State, sid: Sid, payload: seq<byte>)
    requires sid != 0
    ensures var t := Step(s, BoardMessage(Cmd.SessionFocus, sid, payload));
            t.agents == s.agents && t.focused == Some(sid)
  {
    hide React, ReplayMessage, Owner;
    BoardReacts(s, BoardMessage(Cmd.SessionFocus, sid, payload));
  }

  /** A run that leads there: an agent registered as its own parent, granted a session, and focused. */
  lemma SelfAttachedGetsTwice(bytes: seq<byte>)
    requires bytes != []
    ensures var r := NEWCOMER.(parentKind := Some(Claude), parentId := Some("a"));
            var s := Run(INITIAL, [RegisterAgent(r), BoardMessage(Cmd.SessionResponse, 1, []),
                                   BoardMessage(Cmd.SessionFocus, 1, [])]);
            |Enqueued(s, StreamTerminal(NEWCOMER_KEY, bytes))| == 2
  {
    hide Enqueued, HintMessage, SyncMessages, ReplayMessage, Inv;
    var r := NEWCOMER.(parentKind := Some(Claude), parentId := Some("a"));
    var register, grant := RegisterAgent(r), BoardMessage(Cmd.SessionResponse, 1, []);
    var focus := BoardMessage(Cmd.SessionFocus, 1, []);
    NewcomerAsks(r);
    var s1 := Step(INITIAL, register);
    BoardReacts(s1, grant);
    GrantedAgent(s1, 1, []);
    hide React, HandleSessionResponse, FreshAgent;
    var s2 := Step(s1, grant);
    FocusKeepsAgents(s2, 1, []);
    var s3 := Step(s2, focus);
    RunOfThree(INITIAL, register, grant, focus);
    InitialInv();
    RunKeepsInv(INITIAL, [register, grant, focus]);
    hide Step, Enqueued;
    StreamSendsOnceIff(s3, NEWCOMER_KEY, bytes);
  }
}

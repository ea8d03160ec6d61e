/**
 * Who owns a board session, who is focused, and which agents are registered, read
 * off the events of a run.
 */
module Bindings {
  import opened Wrappers
  import opened Utf8
  import opened Codec
  import opened Payloads
  import opened TerminalRing
  import opened DaemonModel
  import opened DaemonInvariant

  /** The board grants session `sid`: the status is OK or Created, or left out. */
  predicate Grants(e: Event, sid: Sid) {
    && e.BoardMessage? && e.cmd == Cmd.SessionResponse && e.sid == sid && sid != 0
    && (e.payload == [] || e.payload[0] == 0x00 || e.payload[0] == 0x01)
  }

  predicate Invalidates(e: Event, sid: Sid) {
    e.BoardMessage? && e.cmd == Cmd.SessionInvalid && e.sid == sid && sid != 0
  }

  predicate Aborts(e: Event, k: Key) {
    e.AbortSession? && e.key == k && !k.kind.Unknown?
  }

  lemma GrantsMeans(e: Event)
    requires e.BoardMessage? && e.cmd == Cmd.SessionResponse
    ensures GrantsSession(e.sid, e.payload) <==> Grants(e, e.sid)
  {
  }

  // ---- one step

  lemma DiscoverOneSid(s: State, d: Discovered, k: Key)
    ensures var t := DiscoverOne(s, d);
            && t.focused == s.focused
            && (k in s.agents ==> k in t.agents && t.agents[k] == s.agents[k])
            && (k !in s.agents ==> (k in t.agents <==> Key(d.kind, d.id) == k))
            && (k !in s.agents && k in t.agents ==> t.agents[k] == DiscoveredAgent(d))
  {
    hide HintMessage;
  }

  predicate Lists(ds: seq<Discovered>, k: Key) {
    exists i :: 0 <= i < |ds| && Key(ds[i].kind, ds[i].id) == k
  }

  lemma ListsSnoc(ds: seq<Discovered>, k: Key)
    requires ds != []
    ensures var init, d := ds[..|ds| - 1], ds[|ds| - 1];
            Lists(ds, k) <==> Lists(init, k) || Key(d.kind, d.id) == k
  {
    var init := ds[..|ds| - 1];
    if Lists(init, k) {
      var i :| 0 <= i < |init| && Key(init[i].kind, init[i].id) == k;
      assert ds[i] == init[i];
    }
  }

  /** A discovery registers exactly the agents it lists, and leaves known ones alone. */
  lemma {:induction false} DiscoverRegisters(s: State, ds: seq<Discovered>, k: Key)
    ensures var t := Discover(s, ds);
            && t.focused == s.focused
            && (k in s.agents ==> k in t.agents && t.agents[k] == s.agents[k])
            && (k !in s.agents ==> (k in t.agents <==> Lists(ds, k)))
            && (k !in s.agents && k in t.agents ==>
                  exists i :: 0 <= i < |ds| && Key(ds[i].kind, ds[i].id) == k && t.agents[k] == DiscoveredAgent(ds[i]))
  {
    if ds == [] {
      return;
    }
    hide DiscoverOne, DiscoveredAgent;
    var init, d := ds[..|ds| - 1], ds[|ds| - 1];
    DiscoverRegisters(s, init, k);
    DiscoverOneSid(Discover(s, init), d, k);
    ListsSnoc(ds, k);
    hide Lists;
    if k !in s.agents && k in Discover(s, init).agents {
      var i :| 0 <= i < |init| && Key(init[i].kind, init[i].id) == k
               && Discover(s, init).agents[k] == DiscoveredAgent(init[i]);
      assert ds[i] == init[i];
    }
  }

  lemma {:induction false} IngestSids(s: State, ts: seq<DiscoveredTurn>)
    ensures Ingest(s, ts).agents.Keys == s.agents.Keys
    ensures forall k :: k in s.agents ==> Ingest(s, ts).agents[k].sid == s.agents[k].sid
    ensures Ingest(s, ts).focused == s.focused
  {
    if ts != [] {
      IngestSids(s, ts[..|ts| - 1]);
    }
  }

  lemma RegisterSids(s: State, r: Registration)
    ensures var t := Register(s, r).next;
            var k := Key(r.kind, r.id);
            && t.focused == s.focused
            && t.agents.Keys == s.agents.Keys + (if Register(s, r).reply == Accepted then {k} else {})
            && (forall j :: j in s.agents ==> t.agents[j].sid == s.agents[j].sid)
            && (Register(s, r).reply == Accepted && k !in s.agents ==> t.agents[k].sid == None)
  {
    hide SyncMessages, HintMessage, ParentOf, IsBlank;
  }

  /** What a session answer of the board does to the bindings. */
  lemma ResponseSids(s: State, sid: Sid, payload: seq<byte>)
    requires Inv(s)
    ensures var t := HandleSessionResponse(s, sid, payload).next;
            && t.focused == s.focused && t.agents.Keys == s.agents.Keys
            && (if GrantsSession(sid, payload) && s.pending != [] then
                  && s.pending[0] in s.agents
                  && forall j :: j in s.agents ==>
                       t.agents[j].sid == if j == s.pending[0] then Some(sid)
                                          else if s.agents[j].sid == Some(sid) then None else s.agents[j].sid
                else t == s)
  {
    hide SyncMessages;
    if GrantsSession(sid, payload) && s.pending != [] {
      assert s.pending[0] in s.pending;
    }
  }

  lemma InvalidSids(s: State, sid: Sid)
    requires sid != 0
    ensures var t := HandleSessionInvalid(s, sid).next;
            && t.agents.Keys == s.agents.Keys
            && (forall j :: j in s.agents ==>
                  t.agents[j].sid == if s.agents[j].sid == Some(sid) then None else s.agents[j].sid)
            && t.focused == if s.focused == Some(sid) then None else s.focused
  {
  }

  lemma DecisionSids(s: State, sid: Sid, payload: seq<byte>)
    ensures var t := HandlePermissionResponse(s, sid, payload).next;
            && t.agents.Keys == s.agents.Keys && t.focused == s.focused
            && forall j :: j in s.agents ==> t.agents[j].sid == s.agents[j].sid
  {
    hide DropRequest, DecodePermissionResponse;
  }

  lemma OtherSids(s: State, e: Event)
    requires !e.RegisterAgent? && !e.DiscoverSessions? && !e.IngestTurns? && !e.BoardMessage?
    ensures var t := Step(s, e);
            && t.focused == s.focused && t.agents.Keys <= s.agents.Keys
            && (forall j :: j in t.agents ==> t.agents[j].sid == s.agents[j].sid)
            && (!e.AbortSession? && !e.PruneMissing? ==> t.agents.Keys == s.agents.Keys)
            && (e.AbortSession? ==> t.agents.Keys == s.agents.Keys - if e.key.kind.Unknown? then {} else {e.key})
  {
    hide StatusMessage, TokenMessage, PermissionMessage, LiveRender, Owner, FocusedOwner, Unsent, HasRequest,
         DropRequest, AppendTimes, Register, Discover, Ingest, Board;
  }

  function SidOf(s: State, k: Key): Option<Sid> {
    if k in s.agents then s.agents[k].sid else None
  }

  lemma DiscoverSid(s: State, e: Event, k: Key)
    requires e.DiscoverSessions? || e.IngestTurns?
    ensures SidOf(Step(s, e), k) == SidOf(s, k) && Step(s, e).focused == s.focused
    ensures k in s.agents ==> k in Step(s, e).agents
  {
    if e.DiscoverSessions? {
      DiscoverRegisters(s, e.sessions, k);
    } else {
      IngestSids(s, e.turns);
    }
    hide Discover, Ingest;
  }

  /** What a step makes of an agent's session. */
  lemma SidStep(s: State, e: Event, k: Key)
    requires Inv(s) && k in Step(s, e).agents
    ensures SidOf(Step(s, e), k) ==
              if e.BoardMessage? && Grants(e, e.sid) && s.pending != [] then
                if k == s.pending[0] then Some(e.sid) else if SidOf(s, k) == Some(e.sid) then None else SidOf(s, k)
              else if e.BoardMessage? && Invalidates(e, e.sid) && SidOf(s, k) == Some(e.sid) then None
              else SidOf(s, k)
  {
    hide React, HandleSessionResponse, HandleSessionInvalid, HandlePermissionResponse, Inv;
    match e
    case BoardMessage(cmd, sid, payload) => BoardSid(s, e, k);
    case RegisterAgent(r) =>
      RegisterReacts(s, r);
      RegisterSids(s, r);
    case DiscoverSessions(_) => DiscoverSid(s, e, k);
    case IngestTurns(_) => DiscoverSid(s, e, k);
    case _ => OtherSids(s, e);
  }

  lemma RegisterReacts(s: State, r: Registration)
    ensures React(s, RegisterAgent(r)) == Register(s, r)
  {
    hide Register;
  }

  lemma BoardSid(s: State, e: Event, k: Key)
    requires Inv(s) && e.BoardMessage?
    ensures Step(s, e).agents.Keys == s.agents.Keys
    ensures SidOf(Step(s, e), k) ==
              if Grants(e, e.sid) && s.pending != [] then
                if k == s.pending[0] then Some(e.sid) else if SidOf(s, k) == Some(e.sid) then None else SidOf(s, k)
              else if Invalidates(e, e.sid) && SidOf(s, k) == Some(e.sid) then None
              else SidOf(s, k)
    ensures Step(s, e).focused == if e.cmd == Cmd.SessionFocus && e.sid != 0 then Some(e.sid)
                                  else if Invalidates(e, e.sid) && s.focused == Some(e.sid) then None
                                  else s.focused
  {
    hide React, HandleSessionResponse, HandleSessionInvalid, HandlePermissionResponse, Inv, GrantsSession,
         ReplayMessage;
    BoardReacts(s, e);
    match e.cmd
    case SessionResponse =>
      GrantsMeans(e);
      ResponseSids(s, e.sid, e.payload);
    case SessionInvalid =>
      if e.sid != 0 {
        InvalidSids(s, e.sid);
      } else {
        InvalidZero(s);
      }
    case PermissionRes => DecisionSids(s, e.sid, e.payload);
    case _ =>
  }

  lemma InvalidZero(s: State)
    ensures HandleSessionInvalid(s, 0).next == s
  {
  }

  /** The board's grant goes to `k`, the first agent waiting. */
  predicate Binds(s: State, e: Event, k: Key, sid: Sid) {
    Grants(e, sid) && s.pending != [] && s.pending[0] == k
  }

  /** `k` loses the session: it is granted to an agent waiting, declared invalid, or `k` goes away. */
  ghost predicate Unbinds(s: State, e: Event, k: Key, sid: Sid) {
    (Grants(e, sid) && s.pending != []) || Invalidates(e, sid) || k !in Step(s, e).agents
  }

  lemma OwnsStep(s: State, e: Event, k: Key, sid: Sid)
    requires Inv(s)
    ensures Owns(Step(s, e), k, sid) <==> Binds(s, e, k, sid) || (Owns(s, k, sid) && !Unbinds(s, e, k, sid))
  {
    hide Step, SidsUnique, AgentSound;
    if k in Step(s, e).agents {
      SidStep(s, e, k);
      assert s.pending != [] ==> s.pending[0] in s.pending;
    } else if Binds(s, e, k, sid) {
      assert s.pending[0] in s.pending;
      BoardSid(s, e, k);
    }
  }

  // ---- whole runs

  /** Event `b` bound `k` to `sid`, and nothing has undone that since. */
  ghost predicate BoundSince(es: seq<Event>, b: nat, k: Key, sid: Sid) {
    && b < |es| && Binds(Run(INITIAL, es[..b]), es[b], k, sid)
    && forall j :: b < j < |es| ==> !Unbinds(Run(INITIAL, es[..j]), es[j], k, sid)
  }

  lemma BoundSnoc(es: seq<Event>, e: Event, b: nat, k: Key, sid: Sid)
    ensures BoundSince(es + [e], b, k, sid) <==>
              if b == |es| then Binds(Run(INITIAL, es), e, k, sid)
              else BoundSince(es, b, k, sid) && !Unbinds(Run(INITIAL, es), e, k, sid)
  {
    hide Binds, Unbinds, Run;
    var all := es + [e];
    assert all[..|es|] == es;
    assert forall j :: 0 <= j < |es| ==> all[..j] == es[..j] && all[j] == es[j];
  }

  /** In every reachable state, an agent owns a session exactly when a grant gave it that, and nothing took it since. */
  lemma {:induction false} OwnsIff(es: seq<Event>, k: Key, sid: Sid)
    ensures Owns(Run(INITIAL, es), k, sid) <==> exists b: nat :: BoundSince(es, b, k, sid)
  {
    hide Step, Inv, Binds, Unbinds;
    if es == [] {
      return;
    }
    hide BoundSince;
    var init, e := es[..|es| - 1], es[|es| - 1];
    assert es == init + [e];
    InitialInv();
    RunKeepsInv(INITIAL, init);
    OwnsIff(init, k, sid);
    OwnsStep(Run(INITIAL, init), e, k, sid);
    forall b: nat { BoundSnoc(init, e, b, k, sid); }
    if Binds(Run(INITIAL, init), e, k, sid) {
      assert BoundSince(es, |init|, k, sid);
    }
    BoundBefore(es, k, sid);
  }

  lemma BoundBefore(es: seq<Event>, k: Key, sid: Sid)
    ensures forall b: nat :: BoundSince(es, b, k, sid) ==> b < |es|
  {
  }

  // ---- the focus

  predicate Focuses(e: Event, sid: Sid) {
    e.BoardMessage? && e.cmd == Cmd.SessionFocus && e.sid == sid && sid != 0
  }

  lemma FocusStep(s: State, e: Event)
    requires Inv(s)
    ensures Step(s, e).focused == if e.BoardMessage? && Focuses(e, e.sid) then Some(e.sid)
                                  else if e.BoardMessage? && Invalidates(e, e.sid) && s.focused == Some(e.sid) then None
                                  else s.focused
  {
    hide React, HandleSessionResponse, HandleSessionInvalid, HandlePermissionResponse, Inv;
    match e
    case BoardMessage(cmd, sid, payload) => BoardSid(s, e, Key(Unknown, ""));
    case RegisterAgent(r) =>
      RegisterReacts(s, r);
      RegisterSids(s, r);
    case DiscoverSessions(_) => DiscoverSid(s, e, Key(Unknown, ""));
    case IngestTurns(_) => DiscoverSid(s, e, Key(Unknown, ""));
    case _ => OtherSids(s, e);
  }

  /** Event `f` focused `sid`; no other focus and no invalidation of it came since. */
  predicate FocusedSince(es: seq<Event>, f: nat, sid: Sid) {
    && f < |es| && Focuses(es[f], sid)
    && forall j :: f < j < |es| ==>
         !Invalidates(es[j], sid) && !(es[j].BoardMessage? && Focuses(es[j], es[j].sid) && es[j].sid != sid)
  }

  /** The focus is the last one the board announced, unless that session was declared invalid since. */
  lemma {:induction false} FocusedIff(es: seq<Event>, sid: Sid)
    ensures Run(INITIAL, es).focused == Some(sid) <==> exists f: nat :: FocusedSince(es, f, sid)
  {
    hide Step, Inv;
    if es == [] {
      return;
    }
    var init, e := es[..|es| - 1], es[|es| - 1];
    InitialInv();
    RunKeepsInv(INITIAL, init);
    FocusedIff(init, sid);
    FocusStep(Run(INITIAL, init), e);
    forall f: nat ensures FocusedSince(es, f, sid) <==>
        if f == |init| then Focuses(e, sid)
        else FocusedSince(init, f, sid) && !Invalidates(e, sid)
             && !(e.BoardMessage? && Focuses(e, e.sid) && e.sid != sid)
    {
      FocusedSnoc(es, f, sid);
    }
    hide FocusedSince, Focuses, Invalidates;
    if Run(INITIAL, init).focused == Some(sid) {
      var f: nat :| FocusedSince(init, f, sid);
      assert FocusedSince(es, f, sid) || !FocusedSince(es, f, sid);
    }
    if Focuses(e, sid) {
      assert FocusedSince(es, |init|, sid);
    }
  }

  lemma FocusedSnoc(es: seq<Event>, f: nat, sid: Sid)
    requires es != []
    ensures var init, e := es[..|es| - 1], es[|es| - 1];
            FocusedSince(es, f, sid) <==>
              if f == |init| then Focuses(e, sid)
              else FocusedSince(init, f, sid) && !Invalidates(e, sid)
                   && !(e.BoardMessage? && Focuses(e, e.sid) && e.sid != sid)
  {
    hide Focuses, Invalidates;
    assert forall j :: 0 <= j < |es| - 1 ==> es[..|es| - 1][j] == es[j];
  }
}

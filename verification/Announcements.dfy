/**
 * What the board is told about a session. A grant introduces the agent it binds,
 * with everything the agent is waiting for; from then on each report reaches the
 * board once, in order, and nothing else does.
 */
module Announcements {
  import opened Wrappers
  import opened Sequences
  import opened Utf8
  import opened Codec
  import opened Payloads
  import opened DaemonModel
  import opened DaemonInvariant
  import opened Bindings
  import opened OpenRequests

  /** The kinds of message that describe a session. */
  const DESCRIBING: set<Cmd> :=
    {Cmd.AgentMeta, Cmd.StatusUpdate, Cmd.TokenUsage, Cmd.TurnAppend, Cmd.PermissionReq, Cmd.SessionHeartbeat}

  /** The payloads of the messages of one kind for `sid`, in order. */
  function Told(ms: seq<Msg>, cmd: Cmd, sid: Sid): seq<seq<byte>> {
    if ms == [] then []
    else (if ms[0].cmd == cmd && ms[0].sid == sid then [ms[0].payload] else []) + Told(ms[1..], cmd, sid)
  }

  function RequestPayloads(ps: seq<Permission>): seq<seq<byte>> {
    seq(|ps|, i requires 0 <= i < |ps| => EncodePermissionRequest(ps[i].reqId, ps[i].tool, ps[i].args))
  }

  /** What a newly bound agent is introduced with. */
  function Introduction(a: Agent, cmd: Cmd): seq<seq<byte>> {
    match cmd
    case AgentMeta => [EncodeAgentMeta(KindByte(a.kind), a.cwd, "")]
    case StatusUpdate => [[StatusByte(a.status)]]
    case TokenUsage => if a.usage == Usage(0, 0, 0) then [] else [EncodeTokenUsage(a.usage)]
    case TurnAppend =>
      if a.fromLaunch && a.turns != [] then
        var last := a.turns[|a.turns| - 1];
        [TurnPayload(last.role, last.text)]
      else []
    case PermissionReq => RequestPayloads(a.pendingPermissions)
    case _ => []
  }

  /** What an event reports about agent `k`, which is bound before and after it. */
  function Report(e: Event, k: Key, cmd: Cmd): seq<seq<byte>> {
    match e
    case ReportActivity(j, status) =>
      if cmd == Cmd.StatusUpdate && j == k && !k.kind.Unknown? && !IsBlank(k.id) then [[StatusByte(status)]] else []
    case UpdateTokens(j, usage) =>
      if cmd == Cmd.TokenUsage && j == k && !k.kind.Unknown? && usage != Usage(0, 0, 0)
      then [EncodeTokenUsage(usage)] else []
    case RequestPermission(j, reqId, tool, args) =>
      if cmd == Cmd.PermissionReq && j == k && !k.kind.Unknown?
      then [EncodePermissionRequest(reqId, tool, args)] else []
    case Heartbeat(_) => if cmd == Cmd.SessionHeartbeat then [[]] else []
    case _ => []
  }

  // ---- lists of messages

  lemma {:induction false} ToldAppend(a: seq<Msg>, b: seq<Msg>, cmd: Cmd, sid: Sid)
    ensures Told(a + b, cmd, sid) == Told(a, cmd, sid) + Told(b, cmd, sid)
  {
    if a == [] {
      assert a + b == b;
    } else {
      assert (a + b)[1..] == a[1..] + b && (a + b)[0] == a[0];
      ToldAppend(a[1..], b, cmd, sid);
    }
  }

  lemma {:induction false} NothingTold(ms: seq<Msg>, cmd: Cmd, sid: Sid)
    requires forall i :: 0 <= i < |ms| ==> ms[i].cmd != cmd || ms[i].sid != sid
    ensures Told(ms, cmd, sid) == []
  {
    if ms != [] {
      NothingTold(ms[1..], cmd, sid);
    }
  }

  lemma OneTold(m: Msg, cmd: Cmd, sid: Sid)
    ensures Told([m], cmd, sid) == if m.cmd == cmd && m.sid == sid then [m.payload] else []
  {
    assert [m][1..] == [];
  }

  lemma UnusedIsNotTold(ms: seq<Msg>, cmds: set<Cmd>, cmd: Cmd, sid: Sid)
    requires Uses(ms, cmds) && cmd !in cmds
    ensures Told(ms, cmd, sid) == []
  {
    NothingTold(ms, cmd, sid);
  }

  // ---- messages about one agent

  lemma OnePermissionTold(a: Agent, p: Permission, cmd: Cmd, sid: Sid)
    ensures Told(PermissionMessage(a, p), cmd, sid) ==
              if cmd == Cmd.PermissionReq && a.sid == Some(sid)
              then [EncodePermissionRequest(p.reqId, p.tool, p.args)] else []
  {
    hide EncodePermissionRequest;
    if a.sid.Some? {
      OneTold(PermissionMessage(a, p)[0], cmd, sid);
    }
  }

  lemma RequestPayloadsCons(ps: seq<Permission>)
    requires ps != []
    ensures RequestPayloads(ps) ==
              [EncodePermissionRequest(ps[0].reqId, ps[0].tool, ps[0].args)] + RequestPayloads(ps[1..])
  {
    hide EncodePermissionRequest;
  }

  lemma {:induction false} PermissionsTold(a: Agent, ps: seq<Permission>, cmd: Cmd, sid: Sid)
    requires a.sid.Some?
    ensures Told(PermissionMessages(a, ps), cmd, sid) ==
              if cmd == Cmd.PermissionReq && a.sid == Some(sid) then RequestPayloads(ps) else []
  {
    hide Told, EncodePermissionRequest, PermissionMessage, RequestPayloads;
    if ps == [] {
      NothingTold([], cmd, sid);
      NoPayloads();
    } else {
      PermissionsTold(a, ps[1..], cmd, sid);
      ToldAppend(PermissionMessage(a, ps[0]), PermissionMessages(a, ps[1..]), cmd, sid);
      OnePermissionTold(a, ps[0], cmd, sid);
      RequestPayloadsCons(ps);
    }
  }

  lemma NoPayloads()
    ensures RequestPayloads([]) == []
  {
  }

  function LastTurnMessages(a: Agent): seq<Msg> {
    if a.fromLaunch && a.turns != [] then TurnMessage(a, a.turns[|a.turns| - 1]) else []
  }

  lemma MetaTold(a: Agent, cmd: Cmd, sid: Sid)
    requires a.sid.Some?
    ensures Told(MetaMessage(a), cmd, sid) ==
              if cmd == Cmd.AgentMeta && a.sid == Some(sid) then Introduction(a, cmd) else []
  {
    hide EncodeAgentMeta;
    OneTold(MetaMessage(a)[0], cmd, sid);
  }

  lemma StatusTold(a: Agent, cmd: Cmd, sid: Sid)
    ensures Told(StatusMessage(a), cmd, sid) ==
              if cmd == Cmd.StatusUpdate && a.sid == Some(sid) then [[StatusByte(a.status)]] else []
  {
    if a.sid.Some? {
      OneTold(StatusMessage(a)[0], cmd, sid);
    }
  }

  lemma TokensTold(a: Agent, cmd: Cmd, sid: Sid)
    ensures Told(TokenMessage(a), cmd, sid) ==
              if cmd == Cmd.TokenUsage && a.sid == Some(sid) then Introduction(a, cmd) else []
  {
    hide EncodeTokenUsage;
    if TokenMessage(a) != [] {
      OneTold(TokenMessage(a)[0], cmd, sid);
    }
  }

  lemma TurnTold(a: Agent, cmd: Cmd, sid: Sid)
    requires a.sid.Some?
    ensures Told(LastTurnMessages(a), cmd, sid) ==
              if cmd == Cmd.TurnAppend && a.sid == Some(sid) then Introduction(a, cmd) else []
  {
    hide TurnPayload;
    if LastTurnMessages(a) != [] {
      OneTold(LastTurnMessages(a)[0], cmd, sid);
    }
  }

  lemma FiveTold(m1: seq<Msg>, m2: seq<Msg>, m3: seq<Msg>, m4: seq<Msg>, m5: seq<Msg>, cmd: Cmd, sid: Sid)
    ensures Told(m1 + m2 + m3 + m4 + m5, cmd, sid) ==
              Told(m1, cmd, sid) + Told(m2, cmd, sid) + Told(m3, cmd, sid) + Told(m4, cmd, sid) + Told(m5, cmd, sid)
  {
    ToldAppend(m1 + m2 + m3 + m4, m5, cmd, sid);
    ToldAppend(m1 + m2 + m3, m4, cmd, sid);
    ToldAppend(m1 + m2, m3, cmd, sid);
    ToldAppend(m1, m2, cmd, sid);
  }

  /** The messages a grant enqueues introduce its agent, to its own sid only. */
  lemma SyncTold(a: Agent, cmd: Cmd, sid: Sid)
    requires a.sid.Some?
    ensures Told(SyncMessages(a), cmd, sid) == if a.sid == Some(sid) then Introduction(a, cmd) else []
  {
    hide Told, MetaMessage, StatusMessage, TokenMessage, PermissionMessages, TurnMessage, EncodeAgentMeta,
         EncodeTokenUsage, TurnPayload, RequestPayloads;
    FiveTold(MetaMessage(a), StatusMessage(a), TokenMessage(a), LastTurnMessages(a),
             PermissionMessages(a, a.pendingPermissions), cmd, sid);
    MetaTold(a, cmd, sid);
    StatusTold(a, cmd, sid);
    TokensTold(a, cmd, sid);
    TurnTold(a, cmd, sid);
    PermissionsTold(a, a.pendingPermissions, cmd, sid);
  }

  // ---- one step

  /** Who owns a session before and after a step is told apart from everyone else by the sid. */
  lemma OthersSid(s: State, k: Key, sid: Sid, j: Key)
    requires SidsUnique(s) && Owns(s, k, sid) && j in s.agents && j != k
    ensures s.agents[j].sid != Some(sid)
  {
  }

  lemma ActivityTold(s: State, e: Event, k: Key, sid: Sid, cmd: Cmd)
    requires Inv(s) && Owns(s, k, sid) && e.ReportActivity?
    ensures Told(Enqueued(s, e), cmd, sid) == Report(e, k, cmd)
  {
    hide Told, StatusMessage, SidsUnique, PendingSound, AgentSound, IsBlank;
    NothingTold([], cmd, sid);
    if e.key in s.agents {
      if e.key != k {
        OthersSid(s, k, sid, e.key);
      }
      var a := s.agents[e.key].(status := e.status);
      StatusTold(a, cmd, sid);
      assert Enqueued(s, e) == if e.key.kind.Unknown? || IsBlank(e.key.id) then [] else StatusMessage(a);
    } else {
      assert Enqueued(s, e) == [];
    }
  }

  lemma UsageTold(s: State, e: Event, k: Key, sid: Sid, cmd: Cmd)
    requires Inv(s) && Owns(s, k, sid) && e.UpdateTokens?
    ensures Told(Enqueued(s, e), cmd, sid) == Report(e, k, cmd)
  {
    hide Told, TokenMessage, EncodeTokenUsage, SidsUnique, PendingSound, AgentSound;
    NothingTold([], cmd, sid);
    if e.key in s.agents {
      if e.key != k {
        OthersSid(s, k, sid, e.key);
      }
      var a := s.agents[e.key].(usage := e.usage);
      TokensTold(a, cmd, sid);
      assert Enqueued(s, e) == if e.key.kind.Unknown? then [] else TokenMessage(a);
    } else {
      assert Enqueued(s, e) == [];
    }
  }

  lemma RequestTold(s: State, e: Event, k: Key, sid: Sid, cmd: Cmd)
    requires Inv(s) && Owns(s, k, sid) && e.RequestPermission? && cmd != Cmd.Vt100Stream
    ensures Told(Enqueued(s, e), cmd, sid) == Report(e, k, cmd)
  {
    hide Told, PermissionMessage, PermissionMessages, LiveRender, SidsUnique, PendingSound, AgentSound,
         EncodePermissionRequest;
    NothingTold([], cmd, sid);
    if e.key in s.agents && !e.key.kind.Unknown? {
      if e.key != k {
        OthersSid(s, k, sid, e.key);
      }
      var a := WithRequest(s.agents[e.key], e.reqId, e.tool, e.args);
      var p := a.pendingPermissions[|a.pendingPermissions| - 1];
      assert Enqueued(s, e) == PermissionMessage(a, p) + LiveRender(s, a);
      ToldAppend(PermissionMessage(a, p), LiveRender(s, a), cmd, sid);
      RenderNotTold(s, a, cmd, sid);
      OnePermissionTold(a, p, cmd, sid);
      assert Told(Enqueued(s, e), cmd, sid) == Told(PermissionMessage(a, p), cmd, sid);
    } else {
      assert Enqueued(s, e) == [];
    }
  }

  lemma RenderNotTold(s: State, a: Agent, cmd: Cmd, sid: Sid)
    requires cmd != Cmd.Vt100Stream
    ensures Told(LiveRender(s, a), cmd, sid) == []
  {
    hide ReplayMessage, Uses;
    NothingTold([], cmd, sid);
    ReplayMessageUses(a);
    UnusedIsNotTold(ReplayMessage(a), {Cmd.Vt100Stream}, cmd, sid);
  }

  /** Each bound sid gets one heartbeat. */
  lemma {:induction false} BeatsTold(ms: seq<Msg>, order: seq<Sid>, cmd: Cmd, sid: Sid)
    requires |ms| == |order| && NoDuplicates(order)
    requires forall i :: 0 <= i < |ms| ==> ms[i] == HeartbeatMessage(order[i])
    ensures Told(ms, cmd, sid) == if cmd == Cmd.SessionHeartbeat && sid in order then [[]] else []
  {
    if ms != [] {
      BeatsTold(ms[1..], order[1..], cmd, sid);
      assert order[0] !in order[1..];
      assert order == [order[0]] + order[1..];
    }
  }

  lemma HeartbeatTold(s: State, e: Event, k: Key, sid: Sid, cmd: Cmd)
    requires Owns(s, k, sid) && e.Heartbeat? && Legal(s, e) && sid != 0
    ensures Told(Enqueued(s, e), cmd, sid) == Report(e, k, cmd)
  {
    var beats := seq(|e.order|, i requires 0 <= i < |e.order| => HeartbeatMessage(e.order[i]));
    assert Enqueued(s, e) == [HeartbeatMessage(0)] + beats;
    hide Step, Enqueued;
    BeatsTold(beats, e.order, cmd, sid);
    OneTold(HeartbeatMessage(0), cmd, sid);
    ToldAppend([HeartbeatMessage(0)], beats, cmd, sid);
    assert sid in e.order;
  }

  /** A heartbeat is also broadcast, once. */
  lemma HeartbeatIsBroadcast(s: State, e: Event)
    requires Inv(s) && e.Heartbeat? && Legal(s, e)
    ensures Told(Enqueued(s, e), Cmd.SessionHeartbeat, 0) == [[]]
    ensures forall i :: 0 <= i < |Enqueued(s, e)| ==> Enqueued(s, e)[i].cmd == Cmd.SessionHeartbeat
  {
    var beats := seq(|e.order|, i requires 0 <= i < |e.order| => HeartbeatMessage(e.order[i]));
    assert Enqueued(s, e) == [HeartbeatMessage(0)] + beats;
    hide Step, Enqueued;
    BeatsTold(beats, e.order, Cmd.SessionHeartbeat, 0);
    OneTold(HeartbeatMessage(0), Cmd.SessionHeartbeat, 0);
    ToldAppend([HeartbeatMessage(0)], beats, Cmd.SessionHeartbeat, 0);
    NobodyOwnsZero(s);
  }

  lemma NobodyOwnsZero(s: State)
    requires Inv(s)
    ensures forall k :: !Owns(s, k, 0)
  {
    forall k ensures !Owns(s, k, 0) {
      if k in s.agents {
        assert AgentSound(k, s.agents[k]);
      }
    }
  }

  /** What a grant enqueues. */
  lemma GrantEnqueues(s: State, e: Event)
    requires Inv(s) && e.BoardMessage? && e.cmd == Cmd.SessionResponse
    ensures !GrantsSession(e.sid, e.payload) || s.pending == [] ==>
              Step(s, e) == s && Enqueued(s, e) == []
    ensures GrantsSession(e.sid, e.payload) && s.pending != [] ==>
              && s.pending[0] in s.agents
              && Enqueued(s, e) == SyncMessages(s.agents[s.pending[0]].(sid := Some(e.sid)))
              && (forall j :: Owns(Step(s, e), j, e.sid) <==> j == s.pending[0])
  {
    hide React, SyncMessages;
    BoardReacts(s, e);
    if GrantsSession(e.sid, e.payload) && s.pending != [] {
      GrantFindsItsAgent(s, e.sid, e.payload);
    }
  }

  lemma IntroductionIgnoresSid(a: Agent, sid: Sid, cmd: Cmd)
    ensures Introduction(a.(sid := Some(sid)), cmd) == Introduction(a, cmd)
  {
  }

  lemma AnswerTold(s: State, e: Event, k: Key, sid: Sid, cmd: Cmd)
    requires Inv(s) && Owns(Step(s, e), k, sid) && e.BoardMessage? && e.cmd == Cmd.SessionResponse
    ensures Binds(s, e, k, sid) ==> k in s.agents && Told(Enqueued(s, e), cmd, sid) == Introduction(s.agents[k], cmd)
    ensures !Binds(s, e, k, sid) ==> Told(Enqueued(s, e), cmd, sid) == []
  {
    GrantsMeans(e);
    GrantEnqueues(s, e);
    hide Step, Enqueued, SyncMessages, Introduction, Inv;
    NothingTold([], cmd, sid);
    if Grants(e, e.sid) && s.pending != [] {
      var a := s.agents[s.pending[0]];
      SyncTold(a.(sid := Some(e.sid)), cmd, sid);
      IntroductionIgnoresSid(a, e.sid, cmd);
    }
  }

  /** A step introduces the agent it binds, and reports about one that stays bound what its event says. */
  lemma StepTells(s: State, e: Event, k: Key, sid: Sid, cmd: Cmd)
    requires Inv(s) && Legal(s, e) && cmd in DESCRIBING && Owns(Step(s, e), k, sid)
    ensures Binds(s, e, k, sid) ==> k in s.agents && Told(Enqueued(s, e), cmd, sid) == Introduction(s.agents[k], cmd)
    ensures !Binds(s, e, k, sid) ==> Told(Enqueued(s, e), cmd, sid) == Report(e, k, cmd)
  {
    hide Step, Enqueued, Inv, Introduction, Legal, Told, Unbinds, Binds, Owns, Report, EventCmds, DESCRIBING;
    OwnsStep(s, e, k, sid);
    StepKeepsInv(s, e);
    OwnedIsSound(Step(s, e), k, sid);
    if e.BoardMessage? && e.cmd == Cmd.SessionResponse {
      AnswerTold(s, e, k, sid, cmd);
      AnswerReportsNothing(e, k, cmd);
    } else {
      OnlyAnswersBind(s, e, k, sid);
      DescribingOnly(cmd);
      match e
      case ReportActivity(_, _) => ActivityTold(s, e, k, sid, cmd);
      case UpdateTokens(_, _) => UsageTold(s, e, k, sid, cmd);
      case RequestPermission(_, _, _, _) => RequestTold(s, e, k, sid, cmd);
      case Heartbeat(_) => HeartbeatTold(s, e, k, sid, cmd);
      case _ => QuietTold(s, e, k, sid, cmd);
    }
  }

  lemma DescribingOnly(cmd: Cmd)
    requires cmd in DESCRIBING
    ensures cmd != Cmd.Vt100Stream && cmd != Cmd.RequestSession
  {
  }

  lemma AnswerReportsNothing(e: Event, k: Key, cmd: Cmd)
    requires e.BoardMessage?
    ensures Report(e, k, cmd) == []
  {
  }

  lemma OnlyAnswersBind(s: State, e: Event, k: Key, sid: Sid)
    requires !(e.BoardMessage? && e.cmd == Cmd.SessionResponse)
    ensures !Binds(s, e, k, sid)
  {
  }

  /** Every other event says nothing that describes a session. */
  lemma QuietTold(s: State, e: Event, k: Key, sid: Sid, cmd: Cmd)
    requires Inv(s) && cmd in DESCRIBING && !(e.BoardMessage? && e.cmd == Cmd.SessionResponse)
    requires !e.ReportActivity? && !e.UpdateTokens? && !e.RequestPermission? && !e.Heartbeat?
    ensures Told(Enqueued(s, e), cmd, sid) == [] && Report(e, k, cmd) == []
  {
    hide Enqueued, Inv, Told;
    StepUses(s, e);
    UnusedIsNotTold(Enqueued(s, e), EventCmds(e), cmd, sid);
  }

  lemma OwnedIsSound(s: State, k: Key, sid: Sid)
    requires Inv(s) && Owns(s, k, sid)
    ensures sid != 0
  {
    assert AgentSound(k, s.agents[k]);
  }

  // ---- whole runs

  /** Everything enqueued by event `b` and those after it. */
  ghost function Since(es: seq<Event>, b: nat): seq<Msg> {
    if |es| <= b then []
    else Since(es[..|es| - 1], b) + Enqueued(Run(INITIAL, es[..|es| - 1]), es[|es| - 1])
  }

  /** What the events after `b` report about `k`. */
  function Reports(es: seq<Event>, b: nat, k: Key, cmd: Cmd): seq<seq<byte>> {
    if |es| <= b + 1 then [] else Reports(es[..|es| - 1], b, k, cmd) + Report(es[|es| - 1], k, cmd)
  }

  /**
   * In every legal run: what the board is told about a session since the grant
   * that bound its owner is the owner's introduction, as it was at the grant, and
   * then its reports, each once and in order, kind by kind.
   */
  lemma {:induction false} BoardIsTold(es: seq<Event>, b: nat, k: Key, sid: Sid, cmd: Cmd)
    requires LegalRun(INITIAL, es) && BoundSince(es, b, k, sid) && cmd in DESCRIBING
    ensures var s := Run(INITIAL, es[..b]);
            k in s.agents && Told(Since(es, b), cmd, sid) == Introduction(s.agents[k], cmd) + Reports(es, b, k, cmd)
  {
    hide Step, Enqueued, Inv, Introduction, Legal, LegalRun, Unbinds, Told, BoundSince, Binds, Report;
    BoundBefore(es, k, sid);
    var init, e := es[..|es| - 1], es[|es| - 1];
    assert es == init + [e];
    var s := Run(INITIAL, init);
    InitialInv();
    RunKeepsInv(INITIAL, init);
    LegalPrefix(INITIAL, es);
    OwnsIff(es, k, sid);
    StepTells(s, e, k, sid, cmd);
    BoundSnoc(init, e, b, k, sid);
    ToldAppend(Since(init, b), Enqueued(s, e), cmd, sid);
    if b == |init| {
      NothingTold([], cmd, sid);
      assert es[..b] == init;
      assert Introduction(s.agents[k], cmd) + [] == Introduction(s.agents[k], cmd);
    } else {
      BoardIsTold(init, b, k, sid, cmd);
      assert init[..b] == es[..b];
      OwnedIsNotPending(init, e, b, k, sid);
    }
  }

  lemma OwnedIsNotPending(es: seq<Event>, e: Event, b: nat, k: Key, sid: Sid)
    requires BoundSince(es, b, k, sid)
    ensures !Binds(Run(INITIAL, es), e, k, sid)
  {
    hide Step;
    InitialInv();
    RunKeepsInv(INITIAL, es);
    OwnsIff(es, k, sid);
    hide BoundSince, SidsUnique, AgentSound, Run;
    assert Owns(Run(INITIAL, es), k, sid);
    var s := Run(INITIAL, es);
    assert s.pending != [] ==> s.pending[0] in s.pending;
  }

  // ---- no request is forgotten

  function PayloadOf(p: Permission): seq<byte> {
    EncodePermissionRequest(p.reqId, p.tool, p.args)
  }

  lemma IntroducedWith(a: Agent, p: Permission)
    requires p in a.pendingPermissions
    ensures PayloadOf(p) in Introduction(a, Cmd.PermissionReq)
  {
    hide EncodePermissionRequest;
    var i :| 0 <= i < |a.pendingPermissions| && a.pendingPermissions[i] == p;
    assert RequestPayloads(a.pendingPermissions)[i] == PayloadOf(p);
  }

  /** A request pending after a step was pending before it or is reported by it. */
  lemma PendingIsReported(s: State, e: Event, k: Key, p: Permission)
    requires k in Step(s, e).agents && p in PendingOf(Step(s, e), k)
    ensures p in PendingOf(s, k) || Report(e, k, Cmd.PermissionReq) == [PayloadOf(p)]
  {
    hide Step, DropRequest, DecodePermissionResponse, EncodePermissionRequest, PendingOf;
    PendingStep(s, e, k);
  }

  lemma {:induction false} PendingWasTold(es: seq<Event>, b: nat, k: Key, sid: Sid, p: Permission)
    requires BoundSince(es, b, k, sid) && p in PendingOf(Run(INITIAL, es), k)
    ensures b < |es|
    ensures var s := Run(INITIAL, es[..b]);
            && k in s.agents
            && PayloadOf(p) in Introduction(s.agents[k], Cmd.PermissionReq) + Reports(es, b, k, Cmd.PermissionReq)
  {
    hide Step, Introduction, Report, BoundSince, Binds, Unbinds, PayloadOf, PendingOf, Inv;
    BoundBefore(es, k, sid);
    var init, e := es[..|es| - 1], es[|es| - 1];
    assert es == init + [e];
    var s := Run(INITIAL, init);
    PendingIsRegistered(Run(INITIAL, es), k, p);
    PendingIsReported(s, e, k, p);
    BoundSnoc(init, e, b, k, sid);
    if b == |init| {
      assert es[..b] == init;
      GrantReportsNothing(s, e, k, sid);
      PendingIsRegistered(s, k, p);
      IntroducedWith(s.agents[k], p);
    } else {
      assert init[..b] == es[..b];
      OwnsIff(init, k, sid);
      if p in PendingOf(s, k) {
        PendingWasTold(init, b, k, sid, p);
      } else {
        BoundWasRegistered(es, b, k, sid);
      }
    }
  }

  lemma PendingIsRegistered(s: State, k: Key, p: Permission)
    requires p in PendingOf(s, k)
    ensures k in s.agents && p in s.agents[k].pendingPermissions
  {
  }

  lemma GrantReportsNothing(s: State, e: Event, k: Key, sid: Sid)
    requires Binds(s, e, k, sid)
    ensures Report(e, k, Cmd.PermissionReq) == []
  {
  }

  lemma BoundWasRegistered(es: seq<Event>, b: nat, k: Key, sid: Sid)
    requires BoundSince(es, b, k, sid)
    ensures b < |es| && k in Run(INITIAL, es[..b]).agents
  {
    hide Run, SidsUnique, AgentSound;
    InitialInv();
    RunKeepsInv(INITIAL, es[..b]);
    var s := Run(INITIAL, es[..b]);
    assert s.pending[0] in s.pending;
  }

  /**
   * In every legal run, each request that waits for the board's answer on a bound
   * agent was put to the board on its session, at the grant that bound it or
   * later.
   */
  lemma PendingIsAnnounced(es: seq<Event>, k: Key, sid: Sid, p: Permission) returns (b: nat)
    requires LegalRun(INITIAL, es) && Owns(Run(INITIAL, es), k, sid)
    requires p in Run(INITIAL, es).agents[k].pendingPermissions
    ensures BoundSince(es, b, k, sid)
    ensures Msg(Cmd.PermissionReq, sid, EncodePermissionRequest(p.reqId, p.tool, p.args)) in Since(es, b)
  {
    hide Run, Since, BoundSince, EncodePermissionRequest, LegalRun, Introduction, Reports;
    OwnsIff(es, k, sid);
    b :| BoundSince(es, b, k, sid);
    PendingWasTold(es, b, k, sid, p);
    BoardIsTold(es, b, k, sid, Cmd.PermissionReq);
    ToldIsSent(Since(es, b), Cmd.PermissionReq, sid, PayloadOf(p));
  }

  lemma {:induction false} ToldIsSent(ms: seq<Msg>, cmd: Cmd, sid: Sid, payload: seq<byte>)
    requires payload in Told(ms, cmd, sid)
    ensures Msg(cmd, sid, payload) in ms
  {
    if payload in Told(ms[1..], cmd, sid) {
      ToldIsSent(ms[1..], cmd, sid, payload);
    } else {
      assert ms[0] == Msg(cmd, sid, payload);
    }
  }

  // ---- what the board shows of an agent's state

  /** The states of a session that the board knows, by their codes. */
  datatype BoardState = Connected | Disconnected | Run_ | Wait | Done | Error

  function ReadState(payload: seq<byte>): Option<BoardState> {
    if |payload| != 1 then None
    else match payload[0]
      case 0x00 => Some(Connected)
      case 0x01 => Some(Disconnected)
      case 0x02 => Some(Run_)
      case 0x03 => Some(Wait)
      case 0x04 => Some(BoardState.Done)
      case 0x05 => Some(BoardState.Error)
      case _ => None
  }

  /** The kinds of agent by their codes; terminals and unknown ones share one. */
  lemma KindIsCoded(kind: AgentKind)
    ensures KindByte(kind) == match kind case Claude => 0x00 case Codex => 0x01 case _ => 0xFF
  {
  }

  /** The board reads a status as its own state; idle and unknown agents are merely connected. */
  lemma StatusIsRead(status: AgentStatus)
    ensures ReadState([StatusByte(status)]) ==
              match status
              case Running => Some(Run_)
              case WaitingInput => Some(Wait)
              case Finished => Some(BoardState.Done)
              case Errored => Some(BoardState.Error)
              case Idle => Some(Connected)
              case UnknownStatus => Some(Connected)
  {
  }
}

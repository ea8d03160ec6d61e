/**
 * What every critical section of the board daemon keeps: who owns which board
 * session, what the pending queue holds, and what the daemon may say to whom.
 */
module DaemonInvariant {
  import opened Wrappers
  import opened Sequences
  import opened Utf8
  import opened Codec
  import opened Payloads
  import opened TerminalRing
  import opened DaemonModel

  ghost predicate Disjoint(a: Agent) {
    forall id :: id in a.resolvedPermissions ==> !HasRequest(a.pendingPermissions, id)
  }

  ghost predicate AgentSound(k: Key, a: Agent) {
    KeyOf(a) == k && a.sid != Some(0) && WellFormed(a.ring) && Disjoint(a)
  }

  ghost predicate SidsUnique(s: State) {
    forall j, k :: j in s.agents && k in s.agents && s.agents[j].sid.Some? && s.agents[j].sid == s.agents[k].sid
                   ==> j == k
  }

  ghost predicate PendingSound(s: State) {
    && NoDuplicates(s.pending)
    && forall k :: k in s.pending ==> k in s.agents && s.agents[k].sid.None?
  }

  /** The inductive invariant of the daemon. */
  ghost predicate Inv(s: State) {
    && (forall k :: k in s.agents ==> AgentSound(k, s.agents[k]))
    && SidsUnique(s)
    && PendingSound(s)
  }

  lemma OwnerIsUnique(s: State, k: Key, sid: Sid)
    requires SidsUnique(s) && Owns(s, k, sid)
    ensures Owner(s, sid) == Some(k)
  {
  }

  // ---- changes to one agent that leave its identity and binding alone

  ghost predicate SameBinding(a: Agent, b: Agent) {
    KeyOf(a) == KeyOf(b) && a.sid == b.sid
  }

  lemma ReplaceKeepsInv(s: State, t: State, k: Key, a: Agent)
    requires Inv(s) && k in s.agents && SameBinding(a, s.agents[k]) && AgentSound(k, a)
    requires t.agents == s.agents[k := a] && t.pending == s.pending
    ensures Inv(t)
  {
  }

  lemma InsertKeepsInv(s: State, k: Key, a: Agent)
    requires Inv(s) && k !in s.agents && AgentSound(k, a) && a.sid.None?
    ensures Inv(s.(agents := s.agents[k := a]))
    ensures k !in s.pending
    ensures Inv(RequestBoardSession(s, a).(agents := s.agents[k := a]))
  {
    SoundKey(k, a);
    hide AgentSound;
    assert NoDuplicates(s.pending + [k]);
    InsertKeepsSids(s, k, a);
  }

  lemma SoundKey(k: Key, a: Agent)
    requires AgentSound(k, a)
    ensures KeyOf(a) == k
  {
  }

  lemma InsertKeepsSids(s: State, k: Key, a: Agent)
    requires SidsUnique(s) && k !in s.agents && a.sid.None?
    ensures SidsUnique(s.(agents := s.agents[k := a]))
  {
  }

  // ---- JSON lines

  lemma RegisterKeepsInv(s: State, r: Registration)
    requires Inv(s)
    ensures Inv(Register(s, r).next)
  {
    var k := Key(r.kind, r.id);
    if Register(s, r).reply == Accepted {
      var newcomer := FreshAgent(r);
      if k in s.agents {
        var a := Reregistered(newcomer, s.agents[k]);
        ReplaceKeepsInv(s, s.(agents := s.agents[k := a]), k, a);
        if a.sid.None? {
          assert NoDuplicates(RequestBoardSession(s, a).pending);
        }
      } else {
        InsertKeepsInv(s, k, newcomer);
      }
    }
  }

  lemma AskPermissionKeepsInv(s: State, k: Key, reqId: U64, tool: string, args: string)
    requires Inv(s)
    ensures Inv(AskPermission(s, k, reqId, tool, args).next)
  {
    if AskPermission(s, k, reqId, tool, args).reply == Accepted {
      var a := WithRequest(s.agents[k], reqId, tool, args);
      forall id | id in a.resolvedPermissions
        ensures !HasRequest(a.pendingPermissions, id)
      {
        var old_ := s.agents[k].pendingPermissions;
        assert !HasRequest(old_, id) && id != reqId;
        assert a.pendingPermissions[..|old_|] == old_;
      }
      ReplaceKeepsInv(s, AskPermission(s, k, reqId, tool, args).next, k, a);
    }
  }

  lemma DroppedRequests(ps: seq<Permission>, reqId: U64, id: U64)
    ensures HasRequest(DropRequest(ps, reqId), id) <==> HasRequest(ps, id) && id != reqId
  {
    var left := DropRequest(ps, reqId);
    if HasRequest(left, id) {
      var i :| 0 <= i < |left| && left[i].reqId == id;
      assert left[i] in left;
      var j :| 0 <= j < |ps| && ps[j] == left[i];
    }
    if HasRequest(ps, id) && id != reqId {
      var j :| 0 <= j < |ps| && ps[j].reqId == id;
      assert ps[j] in left;
    }
  }

  lemma ResolveKeepsInv(s: State, k: Key, reqId: U64)
    requires Inv(s)
    ensures Inv(Resolve(s, k, reqId).next)
  {
    if k in s.agents {
      var a := s.agents[k].(pendingPermissions := DropRequest(s.agents[k].pendingPermissions, reqId));
      forall id ensures HasRequest(a.pendingPermissions, id) ==> HasRequest(s.agents[k].pendingPermissions, id) {
        DroppedRequests(s.agents[k].pendingPermissions, reqId, id);
      }
      assert Disjoint(a);
    }
  }

  lemma DecisionKeepsDisjoint(a: Agent, reqId: U64, d: Decision)
    requires Disjoint(a)
    ensures Disjoint(WithDecision(a, reqId, d))
  {
    var b := WithDecision(a, reqId, d);
    forall id | id in b.resolvedPermissions
      ensures !HasRequest(b.pendingPermissions, id)
    {
      DroppedRequests(a.pendingPermissions, reqId, id);
    }
  }

  lemma StreamKeepsInv(s: State, k: Key, bytes: seq<byte>)
    requires Inv(s)
    ensures Inv(Stream(s, k, bytes).next)
  {
    forall j | j in s.agents
      ensures WellFormed(AppendTimes(s.agents[j].ring, bytes, Visits(s, k, j)))
    {
      AppendTimesIsWindow(s.agents[j].ring, bytes, Visits(s, k, j));
    }
    var t := s.(agents := Streamed(s, k, bytes));
    forall j | j in t.agents ensures AgentSound(j, t.agents[j]) {
      assert AgentSound(j, s.agents[j]);
    }
  }

  lemma AbortKeepsInv(s: State, k: Key)
    requires Inv(s)
    ensures Inv(Abort(s, k).next)
  {
    WithoutKeepsDistinct(s.pending, k);
  }

  // ---- passive discovery

  lemma {:induction false} DiscoverKeepsInv(s: State, ds: seq<Discovered>)
    requires Inv(s)
    ensures Inv(Discover(s, ds))
  {
    if ds != [] {
      var t := Discover(s, ds[..|ds| - 1]);
      var d := ds[|ds| - 1];
      DiscoverKeepsInv(s, ds[..|ds| - 1]);
      if Key(d.kind, d.id) !in t.agents {
        InsertKeepsInv(t, Key(d.kind, d.id), DiscoveredAgent(d));
      }
    }
  }

  lemma {:induction false} IngestKeepsInv(s: State, ts: seq<DiscoveredTurn>)
    requires Inv(s)
    ensures Inv(Ingest(s, ts))
    ensures Ingest(s, ts).outbox == s.outbox && Ingest(s, ts).focused == s.focused
  {
    if ts != [] {
      IngestKeepsInv(s, ts[..|ts| - 1]);
    }
  }

  lemma {:induction false} WithoutAllKeepsDistinct(keys: seq<Key>, gone: set<Key>)
    requires NoDuplicates(keys)
    ensures NoDuplicates(WithoutAll(keys, gone))
  {
    if keys != [] {
      WithoutAllKeepsDistinct(keys[1..], gone);
      assert keys[0] !in keys[1..];
    }
  }

  lemma {:induction false} WithoutAllAbsent(keys: seq<Key>, gone: set<Key>)
    requires forall k :: k in keys ==> k !in gone
    ensures WithoutAll(keys, gone) == keys
  {
    if keys != [] {
      WithoutAllAbsent(keys[1..], gone);
    }
  }

  lemma PruneKeepsInv(s: State, latest: set<Key>)
    requires Inv(s)
    ensures Inv(Prune(s, latest))
  {
    WithoutAllKeepsDistinct(s.pending, Dropped(s, latest));
  }

  // ---- board messages

  /** Clearing every other owner and then binding `k` leaves one owner of `sid`. */
  lemma BindingKeepsUnique(s: State, t: State, k: Key, sid: Sid, a: Agent)
    requires SidsUnique(s) && k in s.agents && a.sid == Some(sid)
    requires t.agents == ClearOwners(s.agents, sid, Some(k))[k := a]
    ensures SidsUnique(t)
    ensures forall j :: Owns(t, j, sid) <==> j == k
    ensures forall j :: j in s.agents && j != k && s.agents[j].sid != Some(sid) ==> t.agents[j] == s.agents[j]
    ensures forall j :: j in s.agents && j != k && s.agents[j].sid == Some(sid)
                        ==> t.agents[j] == s.agents[j].(sid := None)
  {
  }

  lemma SessionResponseKeepsInv(s: State, sid: Sid, payload: seq<byte>)
    requires Inv(s)
    ensures Inv(HandleSessionResponse(s, sid, payload).next)
  {
    if GrantsSession(sid, payload) && s.pending != [] {
      var k := s.pending[0];
      assert k in s.pending && k !in s.pending[1..];
      var t := HandleSessionResponse(s, sid, payload).next;
      var a := s.agents[k].(sid := Some(sid));
      assert t.agents == ClearOwners(s.agents, sid, Some(k))[k := a];
      BindingKeepsUnique(s, t, k, sid, a);
      BoundAgentsSound(s, t, k, sid);
    }
  }

  lemma BoundAgentsSound(s: State, t: State, k: Key, sid: Sid)
    requires Inv(s) && s.pending != [] && k == s.pending[0] && sid != 0
    requires t.agents.Keys == s.agents.Keys && t.pending == s.pending[1..]
    requires k in s.agents && t.agents[k] == s.agents[k].(sid := Some(sid))
    requires forall j :: j in s.agents && j != k ==> t.agents[j] in {s.agents[j], s.agents[j].(sid := None)}
    ensures forall j :: j in t.agents ==> AgentSound(j, t.agents[j])
    ensures PendingSound(t)
  {
    forall j | j in t.pending ensures j in t.agents && t.agents[j].sid.None? {
      assert j in s.pending && j != k;
    }
  }

  lemma SessionInvalidKeepsInv(s: State, sid: Sid)
    requires Inv(s)
    ensures Inv(HandleSessionInvalid(s, sid).next)
  {
    var t := HandleSessionInvalid(s, sid).next;
    forall j | j in t.agents ensures AgentSound(j, t.agents[j]) {
      assert AgentSound(j, s.agents[j]);
    }
  }

  lemma PermissionResponseKeepsInv(s: State, sid: Sid, payload: seq<byte>)
    requires Inv(s)
    ensures Inv(HandlePermissionResponse(s, sid, payload).next)
  {
    var r := DecodePermissionResponse(payload);
    if r.Some? && Owner(s, sid).Some? {
      var k := Owner(s, sid).value;
      assert AgentSound(k, s.agents[k]);
      DecisionKeepsDisjoint(s.agents[k], r.value.0, r.value.1);
    }
  }

  lemma BoardKeepsInv(s: State, cmd: Cmd, sid: Sid, payload: seq<byte>)
    requires Inv(s)
    ensures Inv(Board(s, cmd, sid, payload).next)
  {
    hide HandleSessionResponse, HandleSessionInvalid, HandlePermissionResponse;
    match cmd
    case SessionResponse => SessionResponseKeepsInv(s, sid, payload);
    case SessionInvalid => SessionInvalidKeepsInv(s, sid);
    case PermissionRes => PermissionResponseKeepsInv(s, sid, payload);
    case _ =>
  }

  lemma ReportsKeepInv(s: State, e: Event)
    requires Inv(s) && (e.ReportActivity? || e.UpdateTokens? || e.AppendTurn? || e.PollPermission?)
    ensures Inv(Step(s, e))
  {
    hide StatusMessage, TokenMessage, LiveRender, Register, AskPermission, Resolve, Stream, Abort, Discover,
         Ingest, Prune, Board, Beat, FlushOutbox, SidsUnique, PendingSound, WellFormed, HasRequest;
    var t := Step(s, e);
    if e.key in s.agents {
      var a := t.agents[e.key];
      assert t.agents == s.agents[e.key := a] && t.pending == s.pending;
      assert AgentSound(e.key, s.agents[e.key]);
      ReplaceKeepsInv(s, t, e.key, a);
    }
  }

  lemma OutboxKeepsInv(s: State, e: Event)
    requires Inv(s) && (e.Heartbeat? || e.Flush?)
    ensures Inv(Step(s, e))
  {
    hide Register, Activity, Tokens, AddTurn, AskPermission, Resolve, Poll, Stream, Abort, Discover, Ingest,
         Prune, Board;
  }

  /** Every critical section keeps the invariant, whatever arrives. */
  lemma StepKeepsInv(s: State, e: Event)
    requires Inv(s)
    ensures Inv(Step(s, e))
  {
    hide Inv, Register, Activity, Tokens, AddTurn, AskPermission, Resolve, Poll, Stream, Abort, Discover,
         Ingest, Prune, Board, Beat, FlushOutbox;
    match e
    case RegisterAgent(r) => RegisterKeepsInv(s, r);
    case RequestPermission(k, reqId, tool, args) => AskPermissionKeepsInv(s, k, reqId, tool, args);
    case ResolvePermission(k, reqId) => ResolveKeepsInv(s, k, reqId);
    case StreamTerminal(k, bytes) => StreamKeepsInv(s, k, bytes);
    case AbortSession(k) => AbortKeepsInv(s, k);
    case DiscoverSessions(ds) => DiscoverKeepsInv(s, ds);
    case IngestTurns(ts) => IngestKeepsInv(s, ts);
    case PruneMissing(latest) => PruneKeepsInv(s, latest);
    case BoardMessage(cmd, sid, payload) => BoardKeepsInv(s, cmd, sid, payload);
    case Heartbeat(_) => OutboxKeepsInv(s, e);
    case Flush(_, _) => OutboxKeepsInv(s, e);
    case _ => ReportsKeepInv(s, e);
  }

  /** The invariant holds in every reachable state. */
  lemma {:induction false} RunKeepsInv(s: State, es: seq<Event>)
    requires Inv(s)
    ensures Inv(Run(s, es))
  {
    if es != [] {
      RunKeepsInv(s, es[..|es| - 1]);
      StepKeepsInv(Run(s, es[..|es| - 1]), es[|es| - 1]);
    }
  }

  /**
   * A granted reply always finds its agent registered and unbound: the "pending
   * agent disappeared" error and the transfer of focus from an old sid cannot
   * happen, and afterwards that agent alone owns the sid.
   */
  lemma GrantFindsItsAgent(s: State, sid: Sid, payload: seq<byte>)
    requires Inv(s) && GrantsSession(sid, payload) && s.pending != []
    ensures var r := HandleSessionResponse(s, sid, payload);
            var k := s.pending[0];
            && r.reply == Accepted
            && k in s.agents && s.agents[k].sid.None?
            && r.next.focused == s.focused
            && r.next.pending == s.pending[1..]
            && (forall j :: Owns(r.next, j, sid) <==> j == k)
            && (forall j :: j in s.agents && j != k && s.agents[j].sid != Some(sid)
                            ==> j in r.next.agents && r.next.agents[j] == s.agents[j])
  {
    assert s.pending[0] in s.pending;
  }

  /** A request that is refused changes nothing, except that an unsuccessful flush may have sent some messages. */
  lemma RefusedChangesNothing(s: State, e: Event)
    requires Inv(s) && React(s, e).reply.Refused? && !e.Flush?
    ensures Step(s, e) == s
  {
    hide SyncMessages, HintMessage, ParentOf, IsBlank, StatusMessage, TokenMessage, PermissionMessage, LiveRender,
         HasRequest, DropRequest, Streamed, StreamMessages, Discover, Ingest, Prune, Board, WithTurn;
    if e.BoardMessage? {
      RefusedBoard(s, e.cmd, e.sid, e.payload);
    }
  }

  lemma RefusedBoard(s: State, cmd: Cmd, sid: Sid, payload: seq<byte>)
    requires Inv(s) && Board(s, cmd, sid, payload).reply.Refused?
    ensures Board(s, cmd, sid, payload).next == s
  {
    hide SyncMessages, ReplayMessage, DropRequest, DecodePermissionResponse, Inv;
    if GrantsSession(sid, payload) && s.pending != [] {
      GrantFindsItsAgent(s, sid, payload);
    }
  }

  // ---- what the daemon says

  /**
   * A message is broadcast or addressed to an owned sid, terminal bytes go to
   * the focused sid only, and everything but terminal bytes fits one report.
   */
  ghost predicate Proper(s: State, m: Msg) {
    && (m.sid == 0 || exists k :: Owns(s, k, m.sid))
    && (m.cmd == Cmd.Vt100Stream ==> s.focused == Some(m.sid))
    && (m.cmd != Cmd.Vt100Stream ==> |m.payload| <= HID_MAX_PAYLOAD)
  }

  ghost predicate AllProper(s: State, ms: seq<Msg>) {
    forall i :: 0 <= i < |ms| ==> Proper(s, ms[i])
  }

  lemma {:induction false} PermissionMessagesProper(s: State, k: Key, a: Agent, ps: seq<Permission>)
    requires k in s.agents && s.agents[k].sid == a.sid
    ensures AllProper(s, PermissionMessages(a, ps))
  {
    if ps != [] {
      PermissionMessagesProper(s, k, a, ps[1..]);
      if a.sid.Some? {
        assert Owns(s, k, a.sid.value);
      }
    }
  }

  lemma SyncMessagesProper(s: State, k: Key, a: Agent)
    requires k in s.agents && s.agents[k].sid == a.sid
    ensures AllProper(s, SyncMessages(a))
  {
    hide AllProper, MetaMessage, StatusMessage, TokenMessage, TurnMessage, PermissionMessages;
    var turns := if a.fromLaunch && a.turns != [] then TurnMessage(a, a.turns[|a.turns| - 1]) else [];
    MetaAndTurnsProper(s, k, a);
    AgentMessagesProper(s, k, a);
    NothingIsProper(s);
    PermissionMessagesProper(s, k, a, a.pendingPermissions);
    BothProper(s, MetaMessage(a), StatusMessage(a));
    BothProper(s, MetaMessage(a) + StatusMessage(a), TokenMessage(a));
    BothProper(s, MetaMessage(a) + StatusMessage(a) + TokenMessage(a), turns);
    BothProper(s, MetaMessage(a) + StatusMessage(a) + TokenMessage(a) + turns,
               PermissionMessages(a, a.pendingPermissions));
  }

  lemma MetaAndTurnsProper(s: State, k: Key, a: Agent)
    requires k in s.agents && s.agents[k].sid == a.sid
    ensures AllProper(s, MetaMessage(a))
    ensures forall i :: 0 <= i < |a.turns| ==> AllProper(s, TurnMessage(a, a.turns[i]))
  {
    if a.sid.Some? {
      assert Owns(s, k, a.sid.value);
      forall i | 0 <= i < |a.turns| ensures AllProper(s, TurnMessage(a, a.turns[i])) {
        TurnPayloadIsLongestPrefix(a.turns[i].role, a.turns[i].text);
      }
    }
  }

  lemma AgentMessagesProper(s: State, k: Key, a: Agent)
    requires k in s.agents && s.agents[k].sid == a.sid
    ensures AllProper(s, StatusMessage(a)) && AllProper(s, TokenMessage(a))
    ensures forall p :: AllProper(s, PermissionMessage(a, p))
    ensures AllProper(s, LiveRender(s, a))
  {
    hide AllProper, StatusMessage, TokenMessage, PermissionMessage, LiveRender;
    StatusProper(s, k, a);
    TokensProper(s, k, a);
    LiveRenderProper(s, k, a);
    forall p ensures AllProper(s, PermissionMessage(a, p)) {
      PermissionProper(s, k, a, p);
    }
  }

  /** A short message to the owner of a sid. */
  lemma OneProper(s: State, k: Key, m: Msg)
    requires Owns(s, k, m.sid) && |m.payload| <= HID_MAX_PAYLOAD && m.cmd != Cmd.Vt100Stream
    ensures AllProper(s, [m])
  {
  }

  lemma StatusProper(s: State, k: Key, a: Agent)
    requires k in s.agents && s.agents[k].sid == a.sid
    ensures AllProper(s, StatusMessage(a))
  {
    hide AllProper;
    NothingIsProper(s);
    if a.sid.Some? {
      OneProper(s, k, StatusMessage(a)[0]);
      assert StatusMessage(a) == [StatusMessage(a)[0]];
    }
  }

  lemma TokensProper(s: State, k: Key, a: Agent)
    requires k in s.agents && s.agents[k].sid == a.sid
    ensures AllProper(s, TokenMessage(a))
  {
    hide AllProper, EncodeTokenUsage;
    NothingIsProper(s);
    if a.sid.Some? {
      OneProper(s, k, Msg(Cmd.TokenUsage, a.sid.value, EncodeTokenUsage(a.usage)));
    }
  }

  lemma PermissionProper(s: State, k: Key, a: Agent, p: Permission)
    requires k in s.agents && s.agents[k].sid == a.sid
    ensures AllProper(s, PermissionMessage(a, p))
  {
    hide AllProper, EncodePermissionRequest;
    NothingIsProper(s);
    if a.sid.Some? {
      OneProper(s, k, Msg(Cmd.PermissionReq, a.sid.value, EncodePermissionRequest(p.reqId, p.tool, p.args)));
    }
  }

  lemma LiveRenderProper(s: State, k: Key, a: Agent)
    requires k in s.agents && s.agents[k].sid == a.sid
    ensures AllProper(s, LiveRender(s, a))
  {
    hide Snapshot, PassivePlaceholder;
    if a.sid.Some? {
      assert Owns(s, k, a.sid.value);
    }
  }

  lemma {:induction false} DiscoverSays(s: State, ds: seq<Discovered>)
    ensures s.outbox <= Discover(s, ds).outbox && Discover(s, ds).focused == s.focused
    ensures forall i :: |s.outbox| <= i < |Discover(s, ds).outbox|
                        ==> Discover(s, ds).outbox[i].sid == 0
                            && Discover(s, ds).outbox[i].cmd == Cmd.RequestSession
                            && |Discover(s, ds).outbox[i].payload| <= PLUGIN_HINT_MAX
  {
    if ds != [] {
      DiscoverSays(s, ds[..|ds| - 1]);
    }
  }

  lemma BoardSays(s: State, cmd: Cmd, sid: Sid, payload: seq<byte>)
    requires Inv(s)
    ensures var t := Board(s, cmd, sid, payload).next;
            s.outbox <= t.outbox && AllProper(t, t.outbox[|s.outbox|..])
  {
    hide Inv, AllProper, HandleSessionResponse, Focus, SyncMessages, DropRequest, DecodePermissionResponse;
    NothingIsProper(Board(s, cmd, sid, payload).next);
    assert s.outbox[|s.outbox|..] == [];
    if cmd == Cmd.SessionResponse {
      ResponseSays(s, sid, payload);
    } else if cmd == Cmd.SessionFocus {
      FocusSays(s, sid);
    }
  }

  lemma ResponseSays(s: State, sid: Sid, payload: seq<byte>)
    ensures var t := HandleSessionResponse(s, sid, payload).next;
            s.outbox <= t.outbox && AllProper(t, t.outbox[|s.outbox|..])
  {
    hide SyncMessages, Proper;
    var t := HandleSessionResponse(s, sid, payload).next;
    if t.outbox != s.outbox {
      var k := s.pending[0];
      assert t.outbox == s.outbox + SyncMessages(t.agents[k]);
      assert t.outbox[|s.outbox|..] == SyncMessages(t.agents[k]);
      SyncMessagesProper(t, k, t.agents[k]);
    }
  }

  lemma FocusSays(s: State, sid: Sid)
    ensures var t := Focus(s, sid).next;
            s.outbox <= t.outbox && AllProper(t, t.outbox[|s.outbox|..])
  {
    var t := Focus(s, sid).next;
    if t.outbox != s.outbox {
      var k := Owner(s, sid).value;
      assert Owns(t, k, sid);
      assert t.outbox[|s.outbox|..] == ReplayMessage(s.agents[k]);
    }
  }

  lemma RegisterSaysProperly(s: State, e: Event)
    requires Inv(s) && e.RegisterAgent?
    ensures Step(s, e).outbox == s.outbox + Enqueued(s, e)
    ensures AllProper(Step(s, e), Enqueued(s, e))
  {
    hide Inv, SyncMessages;
    var k := Key(e.registration.kind, e.registration.id);
    var t := Step(s, e);
    if t.outbox != s.outbox {
      assert t.outbox == s.outbox + [HintMessage(t.agents[k])];
    }
  }

  lemma ReportSaysProperly(s: State, e: Event)
    requires e.ReportActivity? || e.UpdateTokens? || e.AppendTurn?
    ensures Step(s, e).outbox == s.outbox + Enqueued(s, e)
    ensures AllProper(Step(s, e), Enqueued(s, e))
  {
    hide StatusMessage, TokenMessage, LiveRender, AllProper;
    var t := Step(s, e);
    if t.outbox == s.outbox {
      NothingIsProper(t);
      assert t.outbox[|s.outbox|..] == [];
    } else {
      AgentMessagesProper(t, e.key, t.agents[e.key]);
      if e.AppendTurn? {
        LiveRenderFocus(s, t, t.agents[e.key]);
      }
    }
  }

  lemma LiveRenderFocus(s: State, t: State, a: Agent)
    requires s.focused == t.focused
    ensures LiveRender(s, a) == LiveRender(t, a)
  {
  }

  lemma NothingIsProper(s: State)
    ensures AllProper(s, [])
  {
  }

  lemma AskPermissionSaysProperly(s: State, k: Key, reqId: U64, tool: string, args: string)
    ensures var t := AskPermission(s, k, reqId, tool, args).next;
            s.outbox <= t.outbox && AllProper(t, t.outbox[|s.outbox|..])
  {
    hide PermissionMessage, LiveRender, AllProper;
    var t := AskPermission(s, k, reqId, tool, args).next;
    if t.outbox == s.outbox {
      NothingIsProper(t);
      assert t.outbox[|s.outbox|..] == [];
    } else {
      var a := t.agents[k];
      var asked := a.pendingPermissions[|a.pendingPermissions| - 1];
      AgentMessagesProper(t, k, a);
      LiveRenderFocus(s, t, a);
      BothProper(t, PermissionMessage(a, asked), LiveRender(t, a));
      assert t.outbox[|s.outbox|..] == PermissionMessage(a, asked) + LiveRender(t, a);
    }
  }

  lemma BothProper(s: State, ms: seq<Msg>, ns: seq<Msg>)
    requires AllProper(s, ms) && AllProper(s, ns)
    ensures AllProper(s, ms + ns)
  {
  }

  lemma StreamSaysProperly(s: State, k: Key, bytes: seq<byte>)
    ensures var t := Stream(s, k, bytes).next;
            s.outbox <= t.outbox && AllProper(t, t.outbox[|s.outbox|..])
  {
    var t := Stream(s, k, bytes).next;
    if t.outbox != s.outbox {
      assert Owns(t, FocusedOwner(s).value, s.focused.value);
      assert t.outbox[|s.outbox|..] == StreamMessages(s, k, bytes);
    }
  }

  lemma DiscoverSaysProperly(s: State, ds: seq<Discovered>)
    ensures var t := Discover(s, ds);
            s.outbox <= t.outbox && AllProper(t, t.outbox[|s.outbox|..])
  {
    DiscoverSays(s, ds);
    hide Discover;
  }

  lemma SilentSteps(s: State, e: Event)
    requires Inv(s)
    requires e.IngestTurns? || e.ResolvePermission? || e.PollPermission? || e.AbortSession? || e.PruneMissing?
    ensures Step(s, e).outbox == s.outbox + Enqueued(s, e)
    ensures AllProper(Step(s, e), Enqueued(s, e))
  {
    hide Inv, Register, Activity, Tokens, AddTurn, AskPermission, Stream, Discover, Ingest, Board, Beat, FlushOutbox;
    if e.IngestTurns? {
      IngestKeepsInv(s, e.turns);
    }
    assert Step(s, e).outbox == s.outbox;
  }

  /**
   * In every legal step from a reachable state, everything enqueued is proper in
   * the state it leaves: addressed to nobody or to a sid with an owner (by the
   * invariant exactly one), terminal bytes only for the focused sid.
   */
  lemma StepSaysProperly(s: State, e: Event)
    requires Inv(s) && Legal(s, e) && !e.Flush?
    ensures Step(s, e).outbox == s.outbox + Enqueued(s, e)
    ensures AllProper(Step(s, e), Enqueued(s, e))
  {
    hide Inv, Enumerates, AllProper, Register, Activity, Tokens, AddTurn, AskPermission, Resolve, Poll, Stream, Abort,
         Discover, Ingest, Prune, Board;
    match e
    case RequestPermission(k, reqId, tool, args) => AskPermissionSaysProperly(s, k, reqId, tool, args);
    case StreamTerminal(k, bytes) => StreamSaysProperly(s, k, bytes);
    case DiscoverSessions(ds) => DiscoverSaysProperly(s, ds);
    case IngestTurns(_) => SilentSteps(s, e);
    case BoardMessage(cmd, sid, payload) => BoardSays(s, cmd, sid, payload);
    case Heartbeat(order) => HeartbeatSays(s, order);
    case ResolvePermission(_, _) => SilentSteps(s, e);
    case PollPermission(_, _) => SilentSteps(s, e);
    case AbortSession(_) => SilentSteps(s, e);
    case PruneMissing(_) => SilentSteps(s, e);
    case RegisterAgent(r) => RegisterSaysProperly(s, e);
    case _ => ReportSaysProperly(s, e);
  }

  lemma HeartbeatSays(s: State, order: seq<Sid>)
    requires Enumerates(s, order)
    ensures var t := Beat(s, order);
            s.outbox <= t.outbox && AllProper(t, t.outbox[|s.outbox|..])
  {
    var t := Beat(s, order);
    var ms := [HeartbeatMessage(0)] + seq(|order|, i requires 0 <= i < |order| => HeartbeatMessage(order[i]));
    assert t.outbox == s.outbox + ms;
    assert t.outbox[|s.outbox|..] == ms;
    forall i | 0 <= i < |ms| ensures Proper(t, ms[i]) {
      if i > 0 {
        assert order[i - 1] in order;
        var k :| Owns(s, k, order[i - 1]);
        assert Owns(t, k, ms[i].sid);
      }
    }
  }

  // ---- which commands a step may enqueue

  ghost predicate Uses(ms: seq<Msg>, cmds: set<Cmd>) {
    forall i :: 0 <= i < |ms| ==> ms[i].cmd in cmds
  }

  const SYNC_CMDS: set<Cmd> :=
    {Cmd.AgentMeta, Cmd.StatusUpdate, Cmd.TokenUsage, Cmd.TurnAppend, Cmd.PermissionReq}

  lemma {:induction false} PermissionMessagesUse(a: Agent, ps: seq<Permission>)
    ensures Uses(PermissionMessages(a, ps), {Cmd.PermissionReq})
  {
    if ps != [] {
      PermissionMessagesUse(a, ps[1..]);
    }
  }

  lemma SyncMessagesUse(a: Agent)
    ensures Uses(SyncMessages(a), SYNC_CMDS)
  {
    PermissionMessagesUse(a, a.pendingPermissions);
  }

  function EventCmds(e: Event): set<Cmd> {
    match e
    case RegisterAgent(_) => {Cmd.RequestSession}
    case DiscoverSessions(_) => {Cmd.RequestSession}
    case AppendTurn(_, _, _, _) => {Cmd.Vt100Stream}
    case StreamTerminal(_, _) => {Cmd.Vt100Stream}
    case RequestPermission(_, _, _, _) => {Cmd.PermissionReq, Cmd.Vt100Stream}
    case ReportActivity(_, _) => {Cmd.StatusUpdate}
    case UpdateTokens(_, _) => {Cmd.TokenUsage}
    case Heartbeat(_) => {Cmd.SessionHeartbeat}
    case BoardMessage(cmd, _, _) =>
      if cmd == Cmd.SessionResponse then SYNC_CMDS
      else if cmd == Cmd.SessionFocus then {Cmd.Vt100Stream}
      else {}
    case _ => {}
  }

  lemma BoardUses(s: State, e: Event)
    requires Inv(s) && e.BoardMessage?
    ensures Uses(Enqueued(s, e), EventCmds(e))
  {
    hide React, Board, Inv, SyncMessages, SYNC_CMDS;
    BoardReacts(s, e);
    var t := Step(s, e);
    var more := BoardAppends(s, e.cmd, e.sid, e.payload);
    assert t.outbox[|s.outbox|..] == more;
  }

  lemma ReplayMessageUses(a: Agent)
    ensures Uses(ReplayMessage(a), {Cmd.Vt100Stream})
  {
  }

  /** What a board message makes the daemon say. */
  lemma BoardAppends(s: State, cmd: Cmd, sid: Sid, payload: seq<byte>) returns (more: seq<Msg>)
    ensures Board(s, cmd, sid, payload).next.outbox == s.outbox + more
    ensures Uses(more, if cmd == Cmd.SessionResponse then SYNC_CMDS
                       else if cmd == Cmd.SessionFocus then {Cmd.Vt100Stream} else {})
  {
    hide SyncMessages, SYNC_CMDS, DropRequest, DecodePermissionResponse, ReplayMessage, Uses;
    NothingUses(SYNC_CMDS);
    NothingUses({Cmd.Vt100Stream});
    NothingUses({});
    var t := Board(s, cmd, sid, payload).next;
    more := [];
    if cmd == Cmd.SessionResponse && t.outbox != s.outbox {
      more := SyncMessages(t.agents[s.pending[0]]);
      SyncMessagesUse(t.agents[s.pending[0]]);
    } else if cmd == Cmd.SessionFocus && t.outbox != s.outbox {
      more := ReplayMessage(s.agents[Owner(s, sid).value]);
      ReplayMessageUses(s.agents[Owner(s, sid).value]);
    }
  }

  /** Each kind of event enqueues its own kinds of message only. */
  lemma StepUses(s: State, e: Event)
    requires Inv(s)
    ensures Uses(Enqueued(s, e), EventCmds(e))
  {
    hide Inv, Register, Activity, Tokens, AddTurn, AskPermission, Resolve, Poll, Stream, Abort, Discover, Ingest, Prune,
         Board, Beat, FlushOutbox, Uses;
    match e
    case BoardMessage(_, _, _) => BoardUses(s, e);
    case DiscoverSessions(ds) => DiscoverUses(s, ds);
    case RegisterAgent(_) => RegisterUses(s, e);
    case RequestPermission(_, _, _, _) => RequestUses(s, e);
    case ReportActivity(_, _) => ReportUses(s, e);
    case UpdateTokens(_, _) => ReportUses(s, e);
    case AppendTurn(_, _, _, _) => ReportUses(s, e);
    case StreamTerminal(_, _) => StreamUses(s, e);
    case Heartbeat(_) => StreamUses(s, e);
    case Flush(_, _) => NothingUses(EventCmds(e));
    case _ => SilentUses(s, e);
  }

  lemma NothingUses(cmds: set<Cmd>)
    ensures Uses([], cmds)
  {
  }

  lemma DiscoverUses(s: State, ds: seq<Discovered>)
    ensures Uses(Enqueued(s, DiscoverSessions(ds)), {Cmd.RequestSession})
  {
    DiscoverSays(s, ds);
    hide Discover;
  }

  lemma ReportUses(s: State, e: Event)
    requires e.ReportActivity? || e.UpdateTokens? || e.AppendTurn?
    ensures Uses(Enqueued(s, e), EventCmds(e))
  {
    hide Register, AskPermission, Resolve, Poll, Stream, Abort, Discover, Ingest, Prune, Board, Beat, FlushOutbox,
         Snapshot, PassivePlaceholder;
  }

  lemma StreamUses(s: State, e: Event)
    requires e.StreamTerminal? || e.Heartbeat?
    ensures Uses(Enqueued(s, e), EventCmds(e))
  {
    hide Register, Activity, Tokens, AddTurn, AskPermission, Resolve, Poll, Abort, Discover, Ingest, Prune, Board,
         FlushOutbox, Streamed, FocusedOwner;
  }

  lemma SilentUses(s: State, e: Event)
    requires Inv(s)
    requires e.IngestTurns? || e.ResolvePermission? || e.PollPermission? || e.AbortSession? || e.PruneMissing?
    ensures Uses(Enqueued(s, e), {})
  {
    hide Inv, Register, Activity, Tokens, AddTurn, AskPermission, Stream, Discover, Ingest, Board, Beat, FlushOutbox;
    if e.IngestTurns? {
      IngestKeepsInv(s, e.turns);
    }
    assert Step(s, e).outbox == s.outbox;
  }

  lemma RegisterUses(s: State, e: Event)
    requires e.RegisterAgent?
    ensures Uses(Enqueued(s, e), {Cmd.RequestSession})
  {
  }

  lemma RequestUses(s: State, e: Event)
    requires e.RequestPermission?
    ensures Uses(Enqueued(s, e), {Cmd.PermissionReq, Cmd.Vt100Stream})
  {
  }

  lemma InitialInv()
    ensures Inv(INITIAL)
  {
  }

  lemma OneOwner(s: State, k: Key, sid: Sid)
    requires Inv(s) && Owns(s, k, sid)
    ensures OwnedByOne(s, sid)
  {
    assert forall j :: Owns(s, j, sid) ==> j == k;
  }

  ghost predicate OwnedByOne(s: State, sid: Sid) {
    exists k :: Owns(s, k, sid) && forall j :: Owns(s, j, sid) ==> j == k
  }

  lemma FlushSaysNothing(s: State, e: Event)
    requires e.Flush?
    ensures Enqueued(s, e) == []
  {
  }

  /**
   * In every run from the start, whatever a legal step enqueues is broadcast or
   * addressed to a sid that exactly one agent then owns; terminal bytes go to
   * the sid focused at that moment; everything else fits one report.
   */
  lemma EveryMessageIsProper(es: seq<Event>, i: nat, m: Msg)
    requires LegalRun(INITIAL, es) && i < |es| && m in Enqueued(Run(INITIAL, es[..i]), es[i])
    ensures var t := Run(INITIAL, es[..i + 1]);
            && (m.sid != 0 ==> OwnedByOne(t, m.sid))
            && (m.cmd == Cmd.Vt100Stream ==> t.focused == Some(m.sid))
            && (m.cmd != Cmd.Vt100Stream ==> |m.payload| <= HID_MAX_PAYLOAD)
  {
    hide Step, Inv, Enqueued, Legal;
    var s := Run(INITIAL, es[..i]);
    assert es[..i + 1][..i] == es[..i];
    InitialInv();
    RunKeepsInv(INITIAL, es[..i]);
    RunKeepsInv(INITIAL, es[..i + 1]);
    if es[i].Flush? {
      FlushSaysNothing(s, es[i]);
    }
    StepSaysProperly(s, es[i]);
    var n :| 0 <= n < |Enqueued(s, es[i])| && Enqueued(s, es[i])[n] == m;
    assert Proper(Step(s, es[i]), Enqueued(s, es[i])[n]);
    if m.sid != 0 {
      var k :| Owns(Run(INITIAL, es[..i + 1]), k, m.sid);
      OneOwner(Run(INITIAL, es[..i + 1]), k, m.sid);
    }
  }
}

/**
 * The board daemon as a state machine. `State` holds what the daemon keeps
 * under its one mutex, `Event` is one critical section, and `Step` is what that
 * section does. `BridgeDaemon` (BoardDaemon.dfy) is the imperative form.
 */
module DaemonModel {
  import opened Wrappers
  import opened Sequences
  import opened Utf8
  import opened Codec
  import opened Payloads
  import opened TerminalRing

  // ---- entities

  datatype AgentKind = Claude | Codex | Terminal | Unknown

  datatype AgentStatus = Running | WaitingInput | Idle | Finished | Errored | UnknownStatus

  datatype Key = Key(kind: AgentKind, id: string)

  datatype Turn = Turn(sid: Sid, role: Role, text: string, tsMs: U64)

  datatype Permission = Permission(reqId: U64, sid: Sid, tool: string, args: string)

  datatype Agent = Agent(
    kind: AgentKind,
    id: string,
    name: string,
    cwd: string,
    status: AgentStatus,
    sid: Option<Sid>,
    usage: Usage,
    turns: seq<Turn>,
    pendingPermissions: seq<Permission>,
    resolvedPermissions: map<U64, Decision>,
    fromHook: bool,
    fromLaunch: bool,
    ring: Ring,
    attached: Option<Key>)

  datatype Msg = Msg(cmd: Cmd, sid: Sid, payload: seq<byte>)

  datatype State = State(
    agents: map<Key, Agent>,
    pending: seq<Key>,
    missing: map<Key, nat>,
    outbox: seq<Msg>,
    focused: Option<Sid>)

  const INITIAL: State := State(map[], [], map[], [], None)

  // ---- events: decoded JSON lines, discovery polls, board messages, timers

  datatype Registration = Registration(
    kind: AgentKind, id: string, name: string, cwd: string, status: AgentStatus,
    parentKind: Option<AgentKind>, parentId: Option<string>, fromLaunch: bool)

  datatype Discovered = Discovered(kind: AgentKind, id: string, name: string, cwd: string, status: AgentStatus)

  datatype DiscoveredTurn = DiscoveredTurn(kind: AgentKind, id: string, role: Role, text: string)

  datatype Event =
    | RegisterAgent(registration: Registration)
    | ReportActivity(key: Key, status: AgentStatus)
    | UpdateTokens(key: Key, usage: Usage)
    | AppendTurn(key: Key, role: Option<Role>, text: string, tsMs: U64)
    | RequestPermission(key: Key, reqId: U64, tool: string, args: string)
    | ResolvePermission(key: Key, reqId: U64)
    | PollPermission(key: Key, reqId: U64)
    | StreamTerminal(key: Key, bytes: seq<byte>)
    | AbortSession(key: Key)
    | DiscoverSessions(sessions: seq<Discovered>)
    | IngestTurns(turns: seq<DiscoveredTurn>)
    | PruneMissing(latest: set<Key>)
    | BoardMessage(cmd: Cmd, sid: Sid, payload: seq<byte>)
    | Heartbeat(order: seq<Sid>)
    | Flush(connected: bool, accepts: nat)

  datatype Error =
    | UnknownKind | MissingId | UnknownRole | NoSuchAgent
    | ZeroSid | RejectedSession(status: byte) | NothingPending | PendingVanished
    | BadPayload | NoSuchSid | UnsupportedCommand | SendFailed

  datatype Reply =
    | Accepted
    | Removed(count: nat)
    | Decided(decision: Decision)
    | Waiting(pending: bool)
    | Refused(error: Error)

  datatype Outcome = Outcome(next: State, reply: Reply)

  // ---- small pure helpers of the source

  /** `s.trim().is_empty()` */
  predicate IsBlank(s: string) {
    forall i :: 0 <= i < |s| ==> IsWhitespace(s[i])
  }

  const SCREEN_CLEAR: seq<byte> := [0x1B, 0x5B, 0x32, 0x4A, 0x1B, 0x5B, 0x48]

  const MAX_RETAINED_TURNS: nat := 50
  const PLUGIN_HINT_MAX: nat := 24
  const GRACE_POLLS: nat := 3

  function KindLabel(kind: AgentKind): string {
    match kind
    case Claude => "claude"
    case Codex => "codex"
    case Terminal => "terminal"
    case Unknown => "unknown"
  }

  function KindByte(kind: AgentKind): byte {
    match kind
    case Claude => 0
    case Codex => 1
    case Terminal => 0xFF
    case Unknown => 0xFF
  }

  function StatusByte(status: AgentStatus): byte {
    match status
    case Running => 2
    case WaitingInput => 3
    case Idle => 0
    case Finished => 4
    case Errored => 5
    case UnknownStatus => 0
  }

  const NO_USAGE: Usage := Usage(0, 0, 0)

  function KeyOf(a: Agent): Key {
    Key(a.kind, a.id)
  }

  predicate IsTransportOnlyTerminal(a: Agent) {
    a.kind == Terminal && a.fromLaunch
  }

  function PassivePlaceholder(a: Agent): string {
    var reset := "\U{1B}[0m";
    var dim := "\U{1B}[90m";
    var name := if a.name == "" then a.id else a.name;
    "\U{1B}[1m\U{1B}[36m" + KindLabel(a.kind) + reset + "  \U{1B}[33m" + name + reset + "\r\n"
    + dim + "No live terminal capture for this passive session." + reset + "\r\n"
    + dim + "Open a Vibe-captured Windows Terminal profile for 1:1 replay." + reset + "\r\n"
  }

  // ---- messages about one agent; none without a board sid

  function MetaMessage(a: Agent): seq<Msg> {
    if a.sid.None? then []
    else [Msg(Cmd.AgentMeta, a.sid.value, EncodeAgentMeta(KindByte(a.kind), a.cwd, ""))]
  }

  function StatusMessage(a: Agent): seq<Msg> {
    if a.sid.None? then [] else [Msg(Cmd.StatusUpdate, a.sid.value, [StatusByte(a.status)])]
  }

  function TokenMessage(a: Agent): seq<Msg> {
    if a.usage == NO_USAGE || a.sid.None? then []
    else [Msg(Cmd.TokenUsage, a.sid.value, EncodeTokenUsage(a.usage))]
  }

  function TurnMessage(a: Agent, t: Turn): seq<Msg> {
    if a.sid.None? then [] else [Msg(Cmd.TurnAppend, a.sid.value, TurnPayload(t.role, t.text))]
  }

  function PermissionMessage(a: Agent, p: Permission): seq<Msg> {
    if a.sid.None? then []
    else [Msg(Cmd.PermissionReq, a.sid.value, EncodePermissionRequest(p.reqId, p.tool, p.args))]
  }

  function PermissionMessages(a: Agent, ps: seq<Permission>): seq<Msg> {
    if ps == [] then [] else PermissionMessage(a, ps[0]) + PermissionMessages(a, ps[1..])
  }

  function SyncMessages(a: Agent): seq<Msg> {
    MetaMessage(a) + StatusMessage(a) + TokenMessage(a)
    + (if a.fromLaunch && a.turns != [] then TurnMessage(a, a.turns[|a.turns| - 1]) else [])
    + PermissionMessages(a, a.pendingPermissions)
  }

  function ReplayMessage(a: Agent): seq<Msg> {
    if a.sid.None? then []
    else
      var snapshot := Snapshot(a.ring);
      if snapshot != [] then [Msg(Cmd.Vt100Stream, a.sid.value, SCREEN_CLEAR + snapshot)]
      else if a.attached.Some? then []
      else if a.fromLaunch then [Msg(Cmd.Vt100Stream, a.sid.value, SCREEN_CLEAR)]
      else [Msg(Cmd.Vt100Stream, a.sid.value, SCREEN_CLEAR + Encode(PassivePlaceholder(a)))]
  }

  /** The live re-render a passive agent gets while the board shows it. */
  function LiveRender(s: State, a: Agent): seq<Msg> {
    if !a.fromLaunch && a.sid.Some? && a.sid == s.focused then ReplayMessage(a) else []
  }

  // ---- ownership of board sids

  ghost predicate Owns(s: State, k: Key, sid: Sid) {
    k in s.agents && s.agents[k].sid == Some(sid)
  }

  ghost function Owner(s: State, sid: Sid): (k: Option<Key>)
    ensures k.Some? ==> Owns(s, k.value, sid)
    ensures k.None? ==> forall j :: !Owns(s, j, sid)
  {
    if exists k :: Owns(s, k, sid) then
      var k :| Owns(s, k, sid);
      Some(k)
    else None
  }

  function ClearOwners(agents: map<Key, Agent>, sid: Sid, keep: Option<Key>): map<Key, Agent> {
    map k | k in agents ::
      if agents[k].sid == Some(sid) && keep != Some(k) then agents[k].(sid := None) else agents[k]
  }

  // ---- session requests

  function HintMessage(a: Agent): Msg {
    var hint := Encode(if a.name == "" then a.id else a.name);
    Msg(Cmd.RequestSession, 0, hint[..Min(|hint|, PLUGIN_HINT_MAX)])
  }

  function RequestBoardSession(s: State, a: Agent): State {
    if KeyOf(a) in s.pending then s
    else s.(pending := s.pending + [KeyOf(a)], outbox := s.outbox + [HintMessage(a)])
  }

  // ---- JSON lines

  datatype Parent = Parent(valid: bool, link: Option<Key>)

  function ParentOf(r: Registration): Parent {
    if r.parentKind.Some? && r.parentId.Some? && !IsBlank(r.parentId.value) then
      if r.parentKind.value.Unknown? then Parent(false, None)
      else Parent(true, Some(Key(r.parentKind.value, r.parentId.value)))
    else Parent(true, None)
  }

  function FreshAgent(r: Registration): Agent {
    Agent(r.kind, r.id, r.name, r.cwd, r.status, None, NO_USAGE, [], [], map[],
          true, r.fromLaunch, EMPTY_RING, ParentOf(r).link)
  }

  /** A registration of a known key keeps what the daemon learned about it. */
  function Reregistered(newcomer: Agent, existing: Agent): Agent {
    newcomer.(sid := existing.sid,
           usage := existing.usage,
           turns := existing.turns,
           pendingPermissions := existing.pendingPermissions,
           resolvedPermissions := existing.resolvedPermissions,
           fromHook := true,
           ring := existing.ring,
           attached := if newcomer.attached.None? then existing.attached else newcomer.attached,
           fromLaunch := newcomer.fromLaunch || existing.fromLaunch)
  }

  function Register(s: State, r: Registration): Outcome {
    if r.kind.Unknown? then Outcome(s, Refused(UnknownKind))
    else if IsBlank(r.id) then Outcome(s, Refused(MissingId))
    else if !ParentOf(r).valid then Outcome(s, Refused(UnknownKind))
    else
      var k := Key(r.kind, r.id);
      var newcomer := FreshAgent(r);
      var known := k in s.agents;
      var a := if known then Reregistered(newcomer, s.agents[k]) else newcomer;
      var announced :=
        if known && s.agents[k].sid.Some? then s
        else if a.sid.Some? then s.(outbox := s.outbox + SyncMessages(a))
        else if IsTransportOnlyTerminal(a) then s
        else RequestBoardSession(s, a);
      Outcome(announced.(agents := announced.agents[k := a]), Accepted)
  }

  function Activity(s: State, k: Key, status: AgentStatus): Outcome {
    if k.kind.Unknown? then Outcome(s, Refused(UnknownKind))
    else if IsBlank(k.id) then Outcome(s, Refused(MissingId))
    else if k !in s.agents then Outcome(s, Accepted)
    else
      var a := s.agents[k].(status := status);
      Outcome(s.(agents := s.agents[k := a], outbox := s.outbox + StatusMessage(a)), Accepted)
  }

  function Tokens(s: State, k: Key, usage: Usage): Outcome {
    if k.kind.Unknown? then Outcome(s, Refused(UnknownKind))
    else if k !in s.agents then Outcome(s, Refused(NoSuchAgent))
    else
      var a := s.agents[k].(usage := usage);
      Outcome(s.(agents := s.agents[k := a], outbox := s.outbox + TokenMessage(a)), Accepted)
  }

  function SidOrBroadcast(a: Agent): Sid {
    if a.sid.Some? then a.sid.value else 0
  }

  function WithTurn(a: Agent, role: Role, text: string, tsMs: U64): Agent {
    a.(turns := TakeLast(a.turns + [Turn(SidOrBroadcast(a), role, text, tsMs)], MAX_RETAINED_TURNS))
  }

  function AddTurn(s: State, k: Key, role: Option<Role>, text: string, tsMs: U64): Outcome {
    if k.kind.Unknown? then Outcome(s, Refused(UnknownKind))
    else if role.None? then Outcome(s, Refused(UnknownRole))
    else if k !in s.agents then Outcome(s, Refused(NoSuchAgent))
    else
      var a := WithTurn(s.agents[k], role.value, text, tsMs);
      Outcome(s.(agents := s.agents[k := a], outbox := s.outbox + LiveRender(s, a)), Accepted)
  }

  function WithRequest(a: Agent, reqId: U64, tool: string, args: string): Agent {
    a.(resolvedPermissions := a.resolvedPermissions - {reqId},
       pendingPermissions := a.pendingPermissions + [Permission(reqId, SidOrBroadcast(a), tool, args)])
  }

  function AskPermission(s: State, k: Key, reqId: U64, tool: string, args: string): Outcome {
    if k.kind.Unknown? then Outcome(s, Refused(UnknownKind))
    else if k !in s.agents then Outcome(s, Refused(NoSuchAgent))
    else
      var a := WithRequest(s.agents[k], reqId, tool, args);
      var asked := a.pendingPermissions[|a.pendingPermissions| - 1];
      Outcome(s.(agents := s.agents[k := a],
                 outbox := s.outbox + PermissionMessage(a, asked) + LiveRender(s, a)),
              Accepted)
  }

  predicate HasRequest(ps: seq<Permission>, reqId: U64) {
    exists i :: 0 <= i < |ps| && ps[i].reqId == reqId
  }

  function DropRequest(ps: seq<Permission>, reqId: U64): (r: seq<Permission>)
    ensures |r| <= |ps|
    ensures forall p :: p in r <==> p in ps && p.reqId != reqId
  {
    if ps == [] then []
    else if ps[0].reqId == reqId then DropRequest(ps[1..], reqId)
    else [ps[0]] + DropRequest(ps[1..], reqId)
  }

  function Resolve(s: State, k: Key, reqId: U64): Outcome {
    if k.kind.Unknown? then Outcome(s, Refused(UnknownKind))
    else if k !in s.agents then Outcome(s, Refused(NoSuchAgent))
    else
      var left := DropRequest(s.agents[k].pendingPermissions, reqId);
      Outcome(s.(agents := s.agents[k := s.agents[k].(pendingPermissions := left)]),
              Removed(|s.agents[k].pendingPermissions| - |left|))
  }

  function Poll(s: State, k: Key, reqId: U64): Outcome {
    if k.kind.Unknown? then Outcome(s, Refused(UnknownKind))
    else if k !in s.agents then Outcome(s, Refused(NoSuchAgent))
    else
      var a := s.agents[k];
      if reqId in a.resolvedPermissions then
        Outcome(s.(agents := s.agents[k := a.(resolvedPermissions := a.resolvedPermissions - {reqId})]),
                Decided(a.resolvedPermissions[reqId]))
      else Outcome(s, Waiting(HasRequest(a.pendingPermissions, reqId)))
  }

  /** How often the mirror loop visits agent `j` for a stream of agent `k`. */
  function Visits(s: State, k: Key, j: Key): nat
    requires j in s.agents
  {
    (if j == k then 1 else 0) + (if s.agents[j].attached == Some(k) then 1 else 0)
  }

  ghost function FocusedOwner(s: State): (k: Option<Key>)
    ensures k.Some? ==> s.focused.Some? && Owns(s, k.value, s.focused.value)
    ensures k.None? ==> s.focused.None? || forall j :: !Owns(s, j, s.focused.value)
  {
    if s.focused.None? then None else Owner(s, s.focused.value)
  }

  ghost function StreamMessages(s: State, k: Key, bytes: seq<byte>): seq<Msg> {
    var shown := FocusedOwner(s);
    if shown.None? then []
    else Repeat(Msg(Cmd.Vt100Stream, s.focused.value, bytes), Visits(s, k, shown.value))
  }

  function Streamed(s: State, k: Key, bytes: seq<byte>): map<Key, Agent> {
    map j | j in s.agents :: s.agents[j].(ring := AppendTimes(s.agents[j].ring, bytes, Visits(s, k, j)))
  }

  ghost function Stream(s: State, k: Key, bytes: seq<byte>): Outcome {
    if k.kind.Unknown? then Outcome(s, Refused(UnknownKind))
    else if k !in s.agents then Outcome(s, Refused(NoSuchAgent))
    else if bytes == [] then Outcome(s, Accepted)
    else
      Outcome(s.(agents := Streamed(s, k, bytes), outbox := s.outbox + StreamMessages(s, k, bytes)), Accepted)
  }

  function Abort(s: State, k: Key): Outcome {
    if k.kind.Unknown? then Outcome(s, Refused(UnknownKind))
    else if k !in s.agents then Outcome(s, Refused(NoSuchAgent))
    else Outcome(s.(agents := s.agents - {k}, pending := Without(s.pending, k)), Accepted)
  }

  // ---- passive discovery

  function DiscoveredAgent(d: Discovered): Agent {
    Agent(d.kind, d.id, d.name, d.cwd, d.status, None, NO_USAGE, [], [], map[],
          false, false, EMPTY_RING, None)
  }

  function DiscoverOne(s: State, d: Discovered): State {
    var k := Key(d.kind, d.id);
    if k in s.agents then s.(missing := s.missing - {k})
    else
      var a := DiscoveredAgent(d);
      var requested := RequestBoardSession(s, a);
      requested.(missing := requested.missing - {k}, agents := requested.agents[k := a])
  }

  function Discover(s: State, ds: seq<Discovered>): State {
    if ds == [] then s else DiscoverOne(Discover(s, ds[..|ds| - 1]), ds[|ds| - 1])
  }

  function IngestOne(s: State, t: DiscoveredTurn): State {
    var k := Key(t.kind, t.id);
    if k !in s.agents then s
    else s.(agents := s.agents[k := WithTurn(s.agents[k], t.role, t.text, 0)])
  }

  function Ingest(s: State, ts: seq<DiscoveredTurn>): State {
    if ts == [] then s else IngestOne(Ingest(s, ts[..|ts| - 1]), ts[|ts| - 1])
  }

  predicate IsPassive(a: Agent) {
    !a.fromLaunch && !a.fromHook && a.sid.Some?
  }

  /** Bound passive agents the latest poll did not see. */
  function Absent(s: State, latest: set<Key>): set<Key> {
    set k | k in s.agents && IsPassive(s.agents[k]) && k !in latest
  }

  function MissedPolls(s: State, latest: set<Key>, k: Key): nat {
    if k in s.missing && k !in latest then Min(s.missing[k] + 1, 255) else 1
  }

  function Dropped(s: State, latest: set<Key>): set<Key> {
    set k | k in Absent(s, latest) && k in s.missing && MissedPolls(s, latest, k) >= GRACE_POLLS
  }

  function WithoutAll(keys: seq<Key>, gone: set<Key>): (r: seq<Key>)
    ensures forall k :: k in r <==> k in keys && k !in gone
    ensures |r| <= |keys|
  {
    if keys == [] then []
    else if keys[0] in gone then WithoutAll(keys[1..], gone)
    else [keys[0]] + WithoutAll(keys[1..], gone)
  }

  function Prune(s: State, latest: set<Key>): State {
    var gone := Dropped(s, latest);
    var absent := Absent(s, latest);
    s.(agents := s.agents - gone,
       pending := WithoutAll(s.pending, gone),
       missing := map k | k in (s.missing.Keys - latest) + absent && k !in gone ::
         if k in absent then MissedPolls(s, latest, k) else s.missing[k])
  }

  // ---- board messages

  const SESSION_OK: byte := 0x00
  const SESSION_CREATED: byte := 0x01

  function ResponseStatus(payload: seq<byte>): byte {
    if payload == [] then SESSION_OK else payload[0]
  }

  /** A reply the daemon acts on: it names a session and reports success. */
  predicate GrantsSession(sid: Sid, payload: seq<byte>) {
    sid != 0 && ResponseStatus(payload) in {SESSION_OK, SESSION_CREATED}
  }

  function HandleSessionResponse(s: State, sid: Sid, payload: seq<byte>): Outcome {
    if sid == 0 then Outcome(s, Refused(ZeroSid))
    else if !GrantsSession(sid, payload) then Outcome(s, Refused(RejectedSession(ResponseStatus(payload))))
    else if s.pending == [] then Outcome(s, Refused(NothingPending))
    else
      var k := s.pending[0];
      var previous := if k in s.agents then s.agents[k].sid else None;
      var cleared := s.(pending := s.pending[1..], agents := ClearOwners(s.agents, sid, Some(k)));
      if k !in cleared.agents then Outcome(cleared, Refused(PendingVanished))
      else
        var a := cleared.agents[k].(sid := Some(sid));
        Outcome(cleared.(agents := cleared.agents[k := a],
                         focused := if previous.Some? && s.focused == previous then Some(sid) else s.focused,
                         outbox := s.outbox + SyncMessages(a)),
                Accepted)
  }

  function HandleSessionInvalid(s: State, sid: Sid): Outcome {
    if sid == 0 then Outcome(s, Accepted)
    else
      Outcome(s.(agents := ClearOwners(s.agents, sid, None),
                 focused := if s.focused == Some(sid) then None else s.focused),
              Accepted)
  }

  ghost function Focus(s: State, sid: Sid): Outcome {
    if sid == 0 then Outcome(s, Accepted)
    else
      var owner := Owner(s, sid);
      Outcome(s.(focused := Some(sid),
                 outbox := s.outbox + if owner.None? then [] else ReplayMessage(s.agents[owner.value])),
              Accepted)
  }

  function WithDecision(a: Agent, reqId: U64, d: Decision): Agent {
    a.(pendingPermissions := DropRequest(a.pendingPermissions, reqId),
       resolvedPermissions := a.resolvedPermissions[reqId := d])
  }

  ghost function HandlePermissionResponse(s: State, sid: Sid, payload: seq<byte>): Outcome {
    if sid == 0 then Outcome(s, Refused(ZeroSid))
    else
      var decoded := DecodePermissionResponse(payload);
      if decoded.None? then Outcome(s, Refused(BadPayload))
      else
        var owner := Owner(s, sid);
        if owner.None? then Outcome(s, Refused(NoSuchSid))
        else
          var k := owner.value;
          Outcome(s.(agents := s.agents[k := WithDecision(s.agents[k], decoded.value.0, decoded.value.1)]),
                  Accepted)
  }

  ghost function Board(s: State, cmd: Cmd, sid: Sid, payload: seq<byte>): Outcome {
    match cmd
    case SessionResponse => HandleSessionResponse(s, sid, payload)
    case SessionFocus => Focus(s, sid)
    case PermissionRes => HandlePermissionResponse(s, sid, payload)
    case SessionInvalid => HandleSessionInvalid(s, sid)
    case EncoderEvent => Outcome(s, Accepted)
    case KeyEvent => Outcome(s, Accepted)
    case _ => Outcome(s, Refused(UnsupportedCommand))
  }

  // ---- timers and the outbox

  function HeartbeatMessage(sid: Sid): Msg {
    Msg(Cmd.SessionHeartbeat, sid, [])
  }

  function Beat(s: State, order: seq<Sid>): State {
    s.(outbox := s.outbox + [HeartbeatMessage(0)]
                 + seq(|order|, i requires 0 <= i < |order| => HeartbeatMessage(order[i])))
  }

  function FramesOf(m: Msg): (frames: seq<Frame>)
    ensures |frames| >= 1
  {
    SplitHostToBoard(m.cmd, m.sid, m.payload)
  }

  /** The transport accepts `accepts` more frames and fails the next one. */
  function Unsent(outbox: seq<Msg>, accepts: nat): seq<Msg> {
    if outbox == [] || accepts < |FramesOf(outbox[0])| then outbox
    else Unsent(outbox[1..], accepts - |FramesOf(outbox[0])|)
  }

  function SentFrames(outbox: seq<Msg>, accepts: nat): seq<Frame> {
    if outbox == [] then []
    else
      var frames := FramesOf(outbox[0]);
      if accepts < |frames| then frames[..accepts]
      else frames + SentFrames(outbox[1..], accepts - |frames|)
  }

  function FlushOutbox(s: State, connected: bool, accepts: nat): Outcome {
    if !connected then Outcome(s, Accepted)
    else
      var left := Unsent(s.outbox, accepts);
      Outcome(s.(outbox := left), if left == [] then Accepted else Refused(SendFailed))
  }

  // ---- one critical section

  ghost function React(s: State, e: Event): Outcome {
    match e
    case RegisterAgent(r) => Register(s, r)
    case ReportActivity(k, status) => Activity(s, k, status)
    case UpdateTokens(k, usage) => Tokens(s, k, usage)
    case AppendTurn(k, role, text, tsMs) => AddTurn(s, k, role, text, tsMs)
    case RequestPermission(k, reqId, tool, args) => AskPermission(s, k, reqId, tool, args)
    case ResolvePermission(k, reqId) => Resolve(s, k, reqId)
    case PollPermission(k, reqId) => Poll(s, k, reqId)
    case StreamTerminal(k, bytes) => Stream(s, k, bytes)
    case AbortSession(k) => Abort(s, k)
    case DiscoverSessions(ds) => Outcome(Discover(s, ds), Accepted)
    case IngestTurns(ts) => Outcome(Ingest(s, ts), Accepted)
    case PruneMissing(latest) => Outcome(Prune(s, latest), Accepted)
    case BoardMessage(cmd, sid, payload) => Board(s, cmd, sid, payload)
    case Heartbeat(order) => Outcome(Beat(s, order), Accepted)
    case Flush(connected, accepts) => FlushOutbox(s, connected, accepts)
  }

  ghost function Step(s: State, e: Event): State {
    React(s, e).next
  }

  lemma BoardReacts(s: State, e: Event)
    requires e.BoardMessage?
    ensures React(s, e) == Board(s, e.cmd, e.sid, e.payload)
  {
    hide Register, Activity, Tokens, AddTurn, AskPermission, Resolve, Poll, Stream, Abort, Discover, Ingest, Prune,
         Board, Beat, FlushOutbox;
  }

  lemma StreamReacts(s: State, k: Key, bytes: seq<byte>)
    ensures React(s, StreamTerminal(k, bytes)) == Stream(s, k, bytes)
  {
    hide Register, Activity, Tokens, AddTurn, AskPermission, Resolve, Poll, Stream, Abort, Discover, Ingest, Prune,
         Board, Beat, FlushOutbox;
  }

  /** A heartbeat visits every bound agent once, in the map's unspecified order. */
  ghost predicate Enumerates(s: State, order: seq<Sid>) {
    && NoDuplicates(order)
    && forall sid: Sid :: sid in order <==> exists k :: Owns(s, k, sid)
  }

  ghost predicate Legal(s: State, e: Event) {
    e.Heartbeat? ==> Enumerates(s, e.order)
  }

  // ---- runs

  ghost function Run(s: State, es: seq<Event>): State {
    if es == [] then s else Step(Run(s, es[..|es| - 1]), es[|es| - 1])
  }

  ghost predicate LegalRun(s: State, es: seq<Event>) {
    forall i :: 0 <= i < |es| ==> Legal(Run(s, es[..i]), es[i])
  }

  /** What a step appends to the outbox; a flush appends nothing. */
  ghost function Enqueued(s: State, e: Event): seq<Msg> {
    var before, after := s.outbox, Step(s, e).outbox;
    if e.Flush? || |after| < |before| then [] else after[|before|..]
  }

  /** Everything a run appends to the outbox, in order. */
  ghost function Log(s: State, es: seq<Event>): seq<Msg> {
    if es == [] then []
    else Log(s, es[..|es| - 1]) + Enqueued(Run(s, es[..|es| - 1]), es[|es| - 1])
  }

  lemma LegalPrefix(s: State, es: seq<Event>)
    requires LegalRun(s, es) && es != []
    ensures LegalRun(s, es[..|es| - 1]) && Legal(Run(s, es[..|es| - 1]), es[|es| - 1])
  {
    var init := es[..|es| - 1];
    forall i | 0 <= i < |init| ensures Legal(Run(s, init[..i]), init[i]) {
      assert init[..i] == es[..i];
    }
  }

  /** A run from its first event on. */
  lemma {:induction false} RunCons(s: State, e: Event, es: seq<Event>)
    ensures Run(s, [e] + es) == Run(Step(s, e), es)
    ensures Log(s, [e] + es) == Enqueued(s, e) + Log(Step(s, e), es)
  {
    hide Step, Enqueued;
    var all := [e] + es;
    if es == [] {
      assert all[..|all| - 1] == [];
      assert [] + Enqueued(s, e) == Enqueued(s, e) == Enqueued(s, e) + [];
    } else {
      var init, last := es[..|es| - 1], es[|es| - 1];
      assert all[..|all| - 1] == [e] + init && all[|all| - 1] == last;
      RunCons(s, e, init);
      LogMoves(Enqueued(s, e), Log(Step(s, e), init), Enqueued(Run(Step(s, e), init), last));
    }
  }

  lemma LogMoves(a: seq<Msg>, b: seq<Msg>, c: seq<Msg>)
    ensures a + b + c == a + (b + c)
  {
  }
}

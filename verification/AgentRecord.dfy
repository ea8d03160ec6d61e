/**
 * What the daemon knows of an agent is what the agent's own events said since it
 * was registered, whatever else happens in between.
 */
module AgentRecord {
  import opened Wrappers
  import opened Sequences
  import opened Utf8
  import opened Codec
  import opened Payloads
  import opened TerminalRing
  import opened DaemonModel
  import opened DaemonInvariant
  import opened Bindings
  import opened Pruning

  /** What was said of one agent: who it is, and what it reported, turns in full. */
  datatype Facts = Facts(
    name: string, cwd: string, status: AgentStatus, usage: Usage, turns: seq<(Role, string, U64)>,
    hooked: bool, launched: bool, parent: Option<Key>)

  /** A registration the daemon accepts. */
  predicate Registers(e: Event, k: Key) {
    && e.RegisterAgent? && Key(e.registration.kind, e.registration.id) == k
    && !k.kind.Unknown? && (exists i :: 0 <= i < |k.id| && !IsWhitespace(k.id[i]))
    && (NamesParent(e.registration) ==> !e.registration.parentKind.value.Unknown?)
  }

  predicate NamesParent(r: Registration) {
    && r.parentKind.Some? && r.parentId.Some?
    && exists i :: 0 <= i < |r.parentId.value| && !IsWhitespace(r.parentId.value[i])
  }

  function ParentNamed(r: Registration): Option<Key> {
    if NamesParent(r) then Some(Key(r.parentKind.value, r.parentId.value)) else None
  }

  function TurnsIngested(ts: seq<DiscoveredTurn>, k: Key): seq<(Role, string, U64)> {
    if ts == [] then []
    else
      var last := ts[|ts| - 1];
      TurnsIngested(ts[..|ts| - 1], k) + if Key(last.kind, last.id) == k then [(last.role, last.text, 0)] else []
  }

  /** The first entry that lists the agent. */
  function FirstListed(ds: seq<Discovered>, k: Key): Discovered
    requires Lists(ds, k)
  {
    if Key(ds[0].kind, ds[0].id) == k then ds[0]
    else
      ListsTail(ds, k);
      FirstListed(ds[1..], k)
  }

  lemma ListsTail(ds: seq<Discovered>, k: Key)
    requires Lists(ds, k) && Key(ds[0].kind, ds[0].id) != k
    ensures Lists(ds[1..], k)
  {
    var i :| 0 <= i < |ds| && Key(ds[i].kind, ds[i].id) == k;
    assert ds[1..][i - 1] == ds[i];
  }

  /** What an event makes of a new agent. */
  function First(e: Event, k: Key): Option<Facts> {
    if Registers(e, k) then
      var r := e.registration;
      Some(Facts(r.name, r.cwd, r.status, Usage(0, 0, 0), [], true, r.fromLaunch, ParentNamed(r)))
    else if e.DiscoverSessions? && Lists(e.sessions, k) then
      var d := FirstListed(e.sessions, k);
      Some(Facts(d.name, d.cwd, d.status, Usage(0, 0, 0), [], false, false, None))
    else None
  }

  /** What an event adds to what is known of an agent. */
  function Next(f: Facts, e: Event, k: Key): Facts {
    if Registers(e, k) then
      var r := e.registration;
      f.(name := r.name, cwd := r.cwd, status := r.status, hooked := true, launched := f.launched || r.fromLaunch,
         parent := if NamesParent(r) then ParentNamed(r) else f.parent)
    else match e
      case ReportActivity(j, status) =>
        if j == k && !k.kind.Unknown? && !IsBlank(k.id) then f.(status := status) else f
      case UpdateTokens(j, usage) => if j == k && !k.kind.Unknown? then f.(usage := usage) else f
      case AppendTurn(j, role, text, tsMs) =>
        if j == k && !k.kind.Unknown? && role.Some? then f.(turns := f.turns + [(role.value, text, tsMs)]) else f
      case IngestTurns(ts) => f.(turns := f.turns + TurnsIngested(ts, k))
      case _ => f
  }

  /** What the events since the agent was registered say of it. */
  ghost function Known(es: seq<Event>, k: Key): Option<Facts> {
    if es == [] || k !in Run(INITIAL, es).agents then None
    else
      var before, e := Known(es[..|es| - 1], k), es[|es| - 1];
      if before.None? then First(e, k) else Some(Next(before.value, e, k))
  }

  // ---- one step

  function Bare(turns: seq<Turn>): (ts: seq<(Role, string, U64)>)
    ensures |ts| == |turns|
  {
    seq(|turns|, i requires 0 <= i < |turns| => (turns[i].role, turns[i].text, turns[i].tsMs))
  }

  /** The record agrees with what was said, of the turns with the last 50. */
  predicate Agrees(a: Agent, f: Facts) {
    && a.name == f.name && a.cwd == f.cwd && a.status == f.status && a.usage == f.usage
    && Bare(a.turns) == TakeLast(f.turns, 50)
    && a.fromHook == f.hooked && a.fromLaunch == f.launched && a.attached == f.parent
  }

  lemma BareSnoc(turns: seq<Turn>, t: Turn)
    ensures Bare(TakeLast(turns + [t], 50)) == TakeLast(Bare(turns) + [(t.role, t.text, t.tsMs)], 50)
  {
  }

  lemma TurnAgrees(a: Agent, f: Facts, role: Role, text: string, tsMs: U64)
    requires Agrees(a, f)
    ensures Agrees(WithTurn(a, role, text, tsMs), f.(turns := f.turns + [(role, text, tsMs)]))
  {
    BareSnoc(a.turns, Turn(SidOrBroadcast(a), role, text, tsMs));
    TakeLastTwice(f.turns, [(role, text, tsMs)], 50);
    hide TakeLast, Bare;
  }

  lemma BlankIff(s: string)
    ensures IsBlank(s) <==> !exists i :: 0 <= i < |s| && !IsWhitespace(s[i])
  {
  }

  lemma RegistersIff(s: State, e: Event)
    requires e.RegisterAgent?
    ensures var k := Key(e.registration.kind, e.registration.id);
            Registers(e, k) <==> Register(s, e.registration).reply == Accepted
    ensures ParentOf(e.registration).valid ==> ParentOf(e.registration).link == ParentNamed(e.registration)
  {
    var r := e.registration;
    BlankIff(r.id);
    if r.parentId.Some? {
      BlankIff(r.parentId.value);
    }
    hide IsBlank;
  }

  lemma RegisterAgrees(s: State, e: Event, k: Key, f: Facts)
    requires e.RegisterAgent? && k in Step(s, e).agents
    ensures k in s.agents && Agrees(s.agents[k], f) ==> Agrees(Step(s, e).agents[k], Next(f, e, k))
    ensures k !in s.agents ==> First(e, k).Some? && Agrees(Step(s, e).agents[k], First(e, k).value)
  {
    hide SyncMessages, HintMessage, Registers, NamesParent, IsBlank, ParentOf, Bare;
    RegistersIff(s, e);
    NoTurns();
    ParentIff(e.registration);
    RegistersOwn(e, k);
  }

  lemma RegistersOwn(e: Event, k: Key)
    requires e.RegisterAgent?
    ensures Registers(e, k) ==> Key(e.registration.kind, e.registration.id) == k
  {
  }

  lemma ParentIff(r: Registration)
    ensures ParentOf(r).valid ==> (ParentOf(r).link.Some? <==> NamesParent(r))
  {
    if r.parentId.Some? {
      BlankIff(r.parentId.value);
    }
    hide IsBlank;
  }

  lemma NoTurns()
    ensures Bare([]) == [] && TakeLast<(Role, string, U64)>([], 50) == []
  {
  }

  lemma FirstListedSnoc(ds: seq<Discovered>, k: Key)
    requires ds != [] && Lists(ds, k)
    ensures var init := ds[..|ds| - 1];
            FirstListed(ds, k) == if Lists(init, k) then FirstListed(init, k) else ds[|ds| - 1]
    decreases |ds|
  {
    var init := ds[..|ds| - 1];
    ListsSnoc(ds, k);
    if |ds| == 1 {
      assert ds[0] == ds[|ds| - 1];
      var i :| 0 <= i < |ds| && Key(ds[i].kind, ds[i].id) == k;
    } else if Key(ds[0].kind, ds[0].id) == k {
      assert init[0] == ds[0];
    } else {
      ListsTail(ds, k);
      FirstListedSnoc(ds[1..], k);
      assert ds[1..][..|ds| - 2] == init[1..];
      if Lists(init, k) {
        ListsTail(init, k);
      }
    }
  }

  lemma {:induction false} DiscoverFirst(s: State, ds: seq<Discovered>, k: Key)
    requires k !in s.agents && Lists(ds, k)
    ensures k in Discover(s, ds).agents && Discover(s, ds).agents[k] == DiscoveredAgent(FirstListed(ds, k))
  {
    hide DiscoverOne, DiscoveredAgent, FirstListed;
    var init, d := ds[..|ds| - 1], ds[|ds| - 1];
    FirstListedSnoc(ds, k);
    ListsSnoc(ds, k);
    DiscoverRegisters(s, init, k);
    DiscoverOneSid(Discover(s, init), d, k);
    hide Lists;
    if Lists(init, k) {
      DiscoverFirst(s, init, k);
    }
  }

  lemma DiscoverAgrees(s: State, e: Event, k: Key, f: Facts)
    requires e.DiscoverSessions? && k in Step(s, e).agents
    ensures k in s.agents && Agrees(s.agents[k], f) ==> Agrees(Step(s, e).agents[k], Next(f, e, k))
    ensures k !in s.agents ==> First(e, k).Some? && Agrees(Step(s, e).agents[k], First(e, k).value)
  {
    hide Discover, Lists, FirstListed, Bare;
    DiscoverRegisters(s, e.sessions, k);
    NoTurns();
    if k !in s.agents {
      DiscoverFirst(s, e.sessions, k);
    }
  }

  lemma {:induction false} IngestAgrees(s: State, ts: seq<DiscoveredTurn>, k: Key, f: Facts)
    requires k in s.agents && Agrees(s.agents[k], f)
    ensures k in Ingest(s, ts).agents
    ensures Agrees(Ingest(s, ts).agents[k], f.(turns := f.turns + TurnsIngested(ts, k)))
  {
    hide Agrees, WithTurn, IngestOne;
    if ts == [] {
      assert f.turns + [] == f.turns;
    } else {
      var init, last := ts[..|ts| - 1], ts[|ts| - 1];
      var t := Ingest(s, init);
      var before := f.(turns := f.turns + TurnsIngested(init, k));
      IngestAgrees(s, init, k, f);
      IngestOneAgent(t, last, k);
      var new_ := if Key(last.kind, last.id) == k then [(last.role, last.text, 0)] else [];
      assert TurnsIngested(ts, k) == TurnsIngested(init, k) + new_;
      assert before.turns + new_ == f.turns + TurnsIngested(ts, k);
      assert before.turns + [] == before.turns;
      if Key(last.kind, last.id) == k {
        TurnAgrees(t.agents[k], before, last.role, last.text, 0);
      }
    }
  }

  lemma IngestOneAgent(s: State, t: DiscoveredTurn, k: Key)
    requires k in s.agents
    ensures k in IngestOne(s, t).agents
    ensures IngestOne(s, t).agents[k] ==
              if Key(t.kind, t.id) == k then WithTurn(s.agents[k], t.role, t.text, 0) else s.agents[k]
  {
    hide WithTurn;
  }

  /** An agent with the same record, but for its session, requests and history. */
  predicate SameRecord(a: Agent, b: Agent) {
    && a.name == b.name && a.cwd == b.cwd && a.status == b.status && a.usage == b.usage && a.turns == b.turns
    && a.fromHook == b.fromHook && a.fromLaunch == b.fromLaunch && a.attached == b.attached
  }

  lemma ResponseKeepsRecord(s: State, sid: Sid, payload: seq<byte>, k: Key)
    requires k in s.agents
    ensures var t := HandleSessionResponse(s, sid, payload).next; k in t.agents && SameRecord(t.agents[k], s.agents[k])
  {
    hide SyncMessages, SameRecord, ClearOwners;
    SameAsItself(s.agents[k]);
    if GrantsSession(sid, payload) && s.pending != [] {
      var first := s.pending[0];
      ClearingKeepsRecord(s.agents, sid, Some(first), k);
      SessionIsNoRecord(ClearOwners(s.agents, sid, Some(first))[k], s.agents[k], Some(sid));
    }
  }

  lemma ClearingKeepsRecord(agents: map<Key, Agent>, sid: Sid, keep: Option<Key>, k: Key)
    requires k in agents
    ensures k in ClearOwners(agents, sid, keep) && SameRecord(ClearOwners(agents, sid, keep)[k], agents[k])
  {
  }

  lemma SessionIsNoRecord(a: Agent, b: Agent, sid: Option<Sid>)
    requires SameRecord(a, b)
    ensures SameRecord(a.(sid := sid), b)
  {
  }

  lemma InvalidKeepsRecord(s: State, sid: Sid, k: Key)
    requires k in s.agents
    ensures var t := HandleSessionInvalid(s, sid).next; k in t.agents && SameRecord(t.agents[k], s.agents[k])
  {
  }

  lemma DecisionKeepsRecord(s: State, sid: Sid, payload: seq<byte>, k: Key)
    requires k in s.agents
    ensures var t := HandlePermissionResponse(s, sid, payload).next;
            k in t.agents && SameRecord(t.agents[k], s.agents[k])
  {
    hide DropRequest, DecodePermissionResponse;
  }

  lemma BoardKeepsRecord(s: State, e: Event, k: Key)
    requires Inv(s) && e.BoardMessage? && k in Step(s, e).agents
    ensures k in s.agents && SameRecord(Step(s, e).agents[k], s.agents[k])
  {
    hide React, HandleSessionResponse, HandleSessionInvalid, HandlePermissionResponse, SameRecord, ReplayMessage, Inv;
    BoardReacts(s, e);
    BoardSid(s, e, k);
    SameAsItself(s.agents[k]);
    match e.cmd
    case SessionResponse => ResponseKeepsRecord(s, e.sid, e.payload, k);
    case SessionInvalid => InvalidKeepsRecord(s, e.sid, k);
    case PermissionRes => DecisionKeepsRecord(s, e.sid, e.payload, k);
    case _ =>
  }

  lemma SameAsItself(a: Agent)
    ensures SameRecord(a, a)
  {
  }

  lemma ReportAgrees(s: State, e: Event, k: Key, f: Facts)
    requires (e.ReportActivity? || e.UpdateTokens? || e.AppendTurn?) && k in Step(s, e).agents
    ensures k in s.agents
    ensures Agrees(s.agents[k], f) ==> Agrees(Step(s, e).agents[k], Next(f, e, k))
  {
    hide StatusMessage, TokenMessage, LiveRender, IsBlank, WithTurn, TakeLast, Bare;
    if e.AppendTurn? && e.key == k && k in s.agents && e.role.Some? && Agrees(s.agents[k], f) {
      TurnAgrees(s.agents[k], f, e.role.value, e.text, e.tsMs);
    }
  }

  lemma RequestKeepsRecord(s: State, j: Key, reqId: U64, tool: string, args: string, k: Key)
    requires k in s.agents
    ensures var t := AskPermission(s, j, reqId, tool, args).next; k in t.agents && SameRecord(t.agents[k], s.agents[k])
  {
    hide PermissionMessage, LiveRender;
  }

  lemma ResolveKeepsRecord(s: State, j: Key, reqId: U64, k: Key)
    requires k in s.agents
    ensures var t := Resolve(s, j, reqId).next; k in t.agents && SameRecord(t.agents[k], s.agents[k])
  {
    hide DropRequest;
  }

  lemma PollKeepsRecord(s: State, j: Key, reqId: U64, k: Key)
    requires k in s.agents
    ensures var t := Poll(s, j, reqId).next; k in t.agents && SameRecord(t.agents[k], s.agents[k])
  {
    hide HasRequest;
  }

  lemma StreamKeepsRecord(s: State, j: Key, bytes: seq<byte>, k: Key)
    requires k in s.agents
    ensures var t := Stream(s, j, bytes).next; k in t.agents && SameRecord(t.agents[k], s.agents[k])
  {
    hide FocusedOwner, StreamMessages, AppendTimes, Visits;
  }

  lemma AbortKeepsRecord(s: State, j: Key, k: Key)
    ensures var t := Abort(s, j).next; k in t.agents ==> k in s.agents && t.agents[k] == s.agents[k]
  {
    hide Without;
  }

  lemma PruneKeepsRecord(s: State, latest: set<Key>, k: Key)
    ensures var t := Prune(s, latest); k in t.agents ==> k in s.agents && t.agents[k] == s.agents[k]
  {
    hide WithoutAll, Dropped, Absent;
  }

  lemma OtherKeepsRecord(s: State, e: Event, k: Key)
    requires Inv(s) && k in Step(s, e).agents
    requires !e.RegisterAgent? && !e.DiscoverSessions? && !e.IngestTurns? && !e.BoardMessage? && !e.ReportActivity?
             && !e.UpdateTokens? && !e.AppendTurn?
    ensures k in s.agents && SameRecord(Step(s, e).agents[k], s.agents[k])
  {
    hide SameRecord, AskPermission, Resolve, Poll, Stream, Abort, Prune, Register, Activity, Tokens, AddTurn, Discover,
         Ingest, Board, Inv, Unsent;
    OtherSids(s, e);
    SameAsItself(s.agents[k]);
    match e
    case RequestPermission(j, reqId, tool, args) => RequestKeepsRecord(s, j, reqId, tool, args, k);
    case ResolvePermission(j, reqId) => ResolveKeepsRecord(s, j, reqId, k);
    case PollPermission(j, reqId) => PollKeepsRecord(s, j, reqId, k);
    case StreamTerminal(j, bytes) => StreamKeepsRecord(s, j, bytes, k);
    case AbortSession(j) => AbortKeepsRecord(s, j, k);
    case PruneMissing(latest) => PruneKeepsRecord(s, latest, k);
    case _ =>
  }

  lemma SameAgrees(a: Agent, b: Agent, f: Facts)
    requires SameRecord(a, b) && Agrees(b, f)
    ensures Agrees(a, f)
  {
  }

  /** A step adds to an agent's record what its event says of it. */
  lemma RecordStep(s: State, e: Event, k: Key, f: Facts)
    requires Inv(s) && k in Step(s, e).agents
    ensures k in s.agents && Agrees(s.agents[k], f) ==> Agrees(Step(s, e).agents[k], Next(f, e, k))
    ensures k !in s.agents ==> First(e, k).Some? && Agrees(Step(s, e).agents[k], First(e, k).value)
  {
    hide Step, Agrees, SameRecord, First, Registers, TurnsIngested, IsBlank, Lists, Inv;
    match e
    case RegisterAgent(_) => RegisterAgrees(s, e, k, f);
    case DiscoverSessions(_) => DiscoverAgrees(s, e, k, f);
    case IngestTurns(ts) => IngestStepAgrees(s, e, k, f);
    case ReportActivity(_, _) => ReportAgrees(s, e, k, f);
    case UpdateTokens(_, _) => ReportAgrees(s, e, k, f);
    case AppendTurn(_, _, _, _) => ReportAgrees(s, e, k, f);
    case BoardMessage(_, _, _) => OtherAgrees(s, e, k, f);
    case _ => OtherAgrees(s, e, k, f);
  }

  lemma IngestStepAgrees(s: State, e: Event, k: Key, f: Facts)
    requires e.IngestTurns? && k in Step(s, e).agents
    ensures k in s.agents
    ensures Agrees(s.agents[k], f) ==> Agrees(Step(s, e).agents[k], Next(f, e, k))
  {
    hide Ingest, Agrees, TurnsIngested;
    IngestSids(s, e.turns);
    if k in s.agents && Agrees(s.agents[k], f) {
      IngestAgrees(s, e.turns, k, f);
    }
  }

  lemma OtherAgrees(s: State, e: Event, k: Key, f: Facts)
    requires !e.RegisterAgent? && !e.DiscoverSessions? && !e.IngestTurns? && !e.ReportActivity?
             && !e.UpdateTokens? && !e.AppendTurn?
    requires Inv(s) && k in Step(s, e).agents
    ensures k in s.agents
    ensures Agrees(s.agents[k], f) ==> Agrees(Step(s, e).agents[k], Next(f, e, k))
  {
    hide Step, Agrees, SameRecord, Inv;
    if e.BoardMessage? {
      BoardKeepsRecord(s, e, k);
    } else {
      OtherKeepsRecord(s, e, k);
    }
    if Agrees(s.agents[k], f) {
      SameAgrees(Step(s, e).agents[k], s.agents[k], f);
    }
  }

  // ---- whole runs

  /**
   * In every reachable state an agent's record is what its own events said since it
   * was registered: the last name, directory, status, token counts and parent, the
   * last 50 turns, and how it came to be known.
   */
  lemma {:induction false} RecordIsKnown(es: seq<Event>, k: Key)
    requires k in Run(INITIAL, es).agents
    ensures Known(es, k).Some? && Agrees(Run(INITIAL, es).agents[k], Known(es, k).value)
  {
    hide Step, Agrees, First, Next, Inv;
    if es == [] {
      NobodyAtFirst(k);
    } else {
      var init, e := es[..|es| - 1], es[|es| - 1];
      var s := Run(INITIAL, init);
      InitialInv();
      RunKeepsInv(INITIAL, init);
      if k in s.agents {
        RecordIsKnown(init, k);
        RecordStep(s, e, k, Known(init, k).value);
      } else {
        NobodyKnown(init, k);
        RecordStep(s, e, k, Facts("", "", Idle, NO_USAGE, [], false, false, None));
      }
    }
  }

  lemma NobodyAtFirst(k: Key)
    ensures k !in Run(INITIAL, []).agents
  {
  }

  lemma NobodyKnown(es: seq<Event>, k: Key)
    requires k !in Run(INITIAL, es).agents
    ensures Known(es, k) == None
  {
    hide Run;
  }

  // ---- who is registered

  /** A poll that drops the agent: it misses it for at least the third time. */
  ghost predicate DroppedBy(es: seq<Event>, e: Event, k: Key) {
    && e.PruneMissing? && k !in e.latest && BoundOnlyDiscovered(Run(INITIAL, es), k)
    && exists i: nat, j: nat :: i < j && MissedAt(es, i, k) && MissedAt(es, j, k) && UnseenSince(es, i, k)
  }

  lemma OtherKeys(s: State, e: Event)
    requires Inv(s) && (e.BoardMessage? || e.IngestTurns?)
    ensures Step(s, e).agents.Keys == s.agents.Keys
  {
    hide Inv, Ingest, Board;
    if e.IngestTurns? {
      IngestSids(s, e.turns);
    } else {
      BoardSid(s, e, Key(Unknown, ""));
    }
  }

  /** An agent is registered by a registration or a discovery that lists it, until it is aborted or a poll drops it. */
  lemma RegisteredIff(es: seq<Event>, e: Event, k: Key)
    ensures k in Run(INITIAL, es + [e]).agents <==>
              || Registers(e, k) || (e.DiscoverSessions? && Lists(e.sessions, k))
              || (k in Run(INITIAL, es).agents && !Aborts(e, k) && !DroppedBy(es, e, k))
  {
    hide React, Registers, Inv, Lists;
    var s := Run(INITIAL, es);
    assert (es + [e])[..|es|] == es;
    InitialInv();
    RunKeepsInv(INITIAL, es);
    hide Run;
    RegistersOwnEvent(e, k);
    match e
    case RegisterAgent(r) =>
      RegisterReacts(s, r);
      RegisterSids(s, r);
      RegistersIff(s, e);
    case DiscoverSessions(ds) => DiscoverKeys(s, e, k);
    case PruneMissing(latest) => PollKeys(es, e, k);
    case BoardMessage(_, _, _) => OtherKeys(s, e);
    case IngestTurns(_) => OtherKeys(s, e);
    case _ => OtherSids(s, e);
  }

  lemma RegistersOwnEvent(e: Event, k: Key)
    ensures Registers(e, k) ==> e.RegisterAgent? && Key(e.registration.kind, e.registration.id) == k
  {
  }

  lemma DiscoverKeys(s: State, e: Event, k: Key)
    requires e.DiscoverSessions?
    ensures k in Step(s, e).agents <==> k in s.agents || Lists(e.sessions, k)
  {
    DiscoverRegisters(s, e.sessions, k);
    hide Discover, Lists;
  }

  lemma PollKeys(es: seq<Event>, e: Event, k: Key)
    requires e.PruneMissing?
    ensures k in Step(Run(INITIAL, es), e).agents <==> k in Run(INITIAL, es).agents && !DroppedBy(es, e, k)
  {
    hide Run, MissedAt, UnseenSince, BoundOnlyDiscovered;
    var s := Run(INITIAL, es);
    PruneCounts(s, e.latest, k);
    if k in s.agents {
      PollDropsIff(es, e.latest, k);
    }
    hide Prune;
  }

  // ---- after a registration

  /**
   * A registration leaves its agent bound or waiting for a session, unless it only
   * carries a terminal; and it asks the board exactly for those that neither own a
   * session nor wait for one.
   */
  lemma RegistrationLeads(s: State, e: Event, k: Key)
    requires e.RegisterAgent? && Registers(e, k)
    ensures var t := Step(s, e);
            && k in t.agents
            && (t.agents[k].sid.Some? || k in t.pending || (k.kind.Terminal? && t.agents[k].fromLaunch))
            && (k in t.pending && k !in s.pending ==> t.agents[k].sid.None?)
            && (t.agents[k].sid.Some? && k !in s.pending ==> k !in t.pending)
            && (k.kind.Terminal? && t.agents[k].fromLaunch && k !in s.pending ==> k !in t.pending)
  {
    hide SyncMessages, HintMessage, Registers, IsBlank, ParentOf;
    RegistersIff(s, e);
    RegistersOwn(e, k);
  }

  /** So does a discovery with the agents it registers. */
  lemma {:induction false} DiscoveryLeads(s: State, ds: seq<Discovered>, k: Key)
    requires k !in s.agents && Lists(ds, k)
    ensures k in Discover(s, ds).agents && k in Discover(s, ds).pending
  {
    var init, d := ds[..|ds| - 1], ds[|ds| - 1];
    ListsSnoc(ds, k);
    DiscoverRegisters(s, init, k);
    hide Lists, HintMessage;
    if Lists(init, k) {
      DiscoveryLeads(s, init, k);
    }
  }
}

/**
 * The board daemon in its imperative form: every handler updates the daemon's
 * tables in place. Each one is proved to do exactly what the state machine of
 * DaemonModel says, and to keep the invariant of DaemonInvariant.
 */
module BoardDaemon {
  import opened Wrappers
  import opened Sequences
  import opened Utf8
  import opened Codec
  import opened Payloads
  import opened TerminalRing
  import opened DaemonModel
  import opened DaemonInvariant

  /** A transport that accepts a number of frames and then fails. */
  class HidLink {
    var connected: bool
    var accepts: nat
    var wire: seq<Frame>

    constructor (connected: bool, accepts: nat)
      ensures this.connected == connected && this.accepts == accepts && wire == []
    {
      this.connected, this.accepts, wire := connected, accepts, [];
    }

    method Send(frame: Frame) returns (ok: bool)
      modifies this
      ensures connected == old(connected)
      ensures ok == (old(accepts) > 0)
      ensures accepts == if ok then old(accepts) - 1 else 0
      ensures wire == old(wire) + if ok then [frame] else []
    {
      ok := accepts > 0;
      if ok {
        accepts, wire := accepts - 1, wire + [frame];
      }
    }
  }

  /** The keys of a hash map in some order. */
  method Listing(keys: set<Key>) returns (order: seq<Key>)
    ensures NoDuplicates(order)
    ensures forall k :: k in order <==> k in keys
    ensures forall i :: 0 <= i < |order| ==> order[i] in keys && order[i] !in order[..i]
  {
    order := [];
    var left := keys;
    while left != {}
      invariant NoDuplicates(order)
      invariant forall k :: k in order <==> k in keys - left
      invariant left <= keys
      decreases left
    {
      var k :| k in left;
      DistinctSnoc(order, k);
      order, left := order + [k], left - {k};
    }
    assert forall i :: 0 <= i < |order| ==> order[i] in order;
  }

  function Elements(keys: seq<Key>): set<Key> {
    set k | k in keys
  }

  lemma NoElements()
    ensures Elements([]) == {}
  {
  }

  lemma OneMoreElement(keys: seq<Key>, k: Key)
    ensures Elements(keys + [k]) == Elements(keys) + {k}
  {
  }

  lemma RemoveOneMore<V>(m: map<Key, V>, gone: set<Key>, k: Key)
    ensures m - gone - {k} == m - (gone + {k})
  {
  }

  function Detached(agents: map<Key, Agent>, gone: set<Key>): map<Key, Agent> {
    map k | k in agents :: if k in gone then agents[k].(sid := None) else agents[k]
  }

  lemma DetachOne(agents: map<Key, Agent>, done: seq<Key>, k: Key)
    requires k in agents
    ensures var d := Detached(agents, Elements(done));
            Detached(agents, Elements(done + [k])) == d[k := d[k].(sid := None)]
  {
  }

  lemma DetachedNone(agents: map<Key, Agent>)
    ensures Detached(agents, Elements([])) == agents
  {
  }

  lemma DetachedAll(agents: map<Key, Agent>, stale: seq<Key>, sid: Sid, keep: Option<Key>)
    requires forall k :: k in stale <==> k in agents && agents[k].sid == Some(sid) && keep != Some(k)
    ensures Detached(agents, Elements(stale)) == ClearOwners(agents, sid, keep)
  {
  }

  /** The miss counters of a prune after the candidates in `done`. */
  function Counted(s: State, latest: set<Key>, done: set<Key>): map<Key, nat> {
    map k | k in (s.missing.Keys - latest) + (done - latest) ::
      if k in done then MissedPolls(s, latest, k) else s.missing[k]
  }

  /** Counting every passive agent and forgetting the dropped ones is the whole prune. */
  lemma PruneFromCounts(s: State, latest: set<Key>, passive: set<Key>, gone: set<Key>)
    requires forall k :: k in passive <==> k in s.agents && IsPassive(s.agents[k])
    requires gone == passive * Dropped(s, latest)
    ensures gone == Dropped(s, latest)
    ensures Prune(s, latest) == s.(
      agents := s.agents - gone,
      pending := WithoutAll(s.pending, gone),
      missing := Counted(s, latest, passive) - gone)
  {
    assert passive - latest == Absent(s, latest);
    assert Counted(s, latest, passive) - gone == Prune(s, latest).missing;
  }

  /** One more candidate: its counter, and whether it is out of grace. */
  lemma CountOne(s: State, latest: set<Key>, done: seq<Key>, k: Key)
    requires k !in done && k in s.agents && IsPassive(s.agents[k])
    ensures var c := Counted(s, latest, Elements(done));
            var dropped := Elements(done) * Dropped(s, latest);
            && Elements(done + [k]) == Elements(done) + {k}
            && (k in latest ==>
                  && Counted(s, latest, Elements(done + [k])) == c
                  && Elements(done + [k]) * Dropped(s, latest) == dropped)
            && (k !in latest ==>
                  var count := if k in c then Min(c[k] + 1, 255) else 1;
                  && (k in c <==> k in s.missing)
                  && Counted(s, latest, Elements(done + [k])) == c[k := count]
                  && Elements(done + [k]) * Dropped(s, latest)
                     == if k in c && count >= GRACE_POLLS then dropped + {k} else dropped)
  {
    assert k !in latest ==> (k in Dropped(s, latest) <==> k in s.missing && MissedPolls(s, latest, k) >= GRACE_POLLS);
    assert k in latest ==> k !in Dropped(s, latest);
  }

  // ---- the mirror loop of a terminal stream, for any visiting order

  function MirrorOne(s: State, j: Key, bytes: seq<byte>): State {
    if j !in s.agents then s
    else
      var a := s.agents[j];
      s.(agents := s.agents[j := a.(ring := Append(a.ring, bytes))],
         outbox := s.outbox + if a.sid.Some? && a.sid == s.focused
                              then [Msg(Cmd.Vt100Stream, a.sid.value, bytes)] else [])
  }

  function MirrorAll(s: State, order: seq<Key>, bytes: seq<byte>): State {
    if order == [] then s else MirrorOne(MirrorAll(s, order[..|order| - 1], bytes), order[|order| - 1], bytes)
  }

  ghost predicate Mirrored(s: State, t: State, order: seq<Key>, bytes: seq<byte>) {
    && t == s.(agents := t.agents, outbox := t.outbox)
    && t.agents.Keys == s.agents.Keys
    && forall j :: j in s.agents ==> t.agents[j] == VisitedAgent(s.agents[j], bytes, multiset(order)[j])
  }

  function VisitedAgent(a: Agent, bytes: seq<byte>, times: nat): Agent {
    a.(ring := AppendTimes(a.ring, bytes, times))
  }

  lemma MirrorOneVisits(s: State, t: State, order: seq<Key>, j: Key, bytes: seq<byte>)
    requires Mirrored(s, t, order, bytes) && j in s.agents
    ensures Mirrored(s, MirrorOne(t, j, bytes), order + [j], bytes)
  {
    var u := MirrorOne(t, j, bytes);
    var n := multiset(order)[j];
    assert multiset(order + [j])[j] == n + 1;
    assert AppendTimes(s.agents[j].ring, bytes, n + 1) == Append(AppendTimes(s.agents[j].ring, bytes, n), bytes);
    forall k | k in s.agents ensures u.agents[k] == VisitedAgent(s.agents[k], bytes, multiset(order + [j])[k]) {
      if k != j {
        assert multiset(order + [j])[k] == multiset(order)[k];
      }
    }
  }

  /** Agent `j` is visited `multiset(order)[j]` times. */
  lemma {:induction false} MirroredAgents(s: State, order: seq<Key>, bytes: seq<byte>)
    requires forall i :: 0 <= i < |order| ==> order[i] in s.agents
    ensures Mirrored(s, MirrorAll(s, order, bytes), order, bytes)
  {
    if order == [] {
      forall j | j in s.agents ensures s.agents[j] == VisitedAgent(s.agents[j], bytes, 0) {
      }
    } else {
      var init, last := order[..|order| - 1], order[|order| - 1];
      assert order == init + [last];
      MirroredAgents(s, init, bytes);
      MirrorOneVisits(s, MirrorAll(s, init, bytes), init, last, bytes);
    }
  }

  /** What a visiting order shows on the board: one message per visit of the focused owner. */
  ghost function Shown(s: State, order: seq<Key>, bytes: seq<byte>): seq<Msg> {
    var shown := FocusedOwner(s);
    if shown.None? then []
    else Repeat(Msg(Cmd.Vt100Stream, s.focused.value, bytes), multiset(order)[shown.value])
  }

  lemma ShownSnoc(s: State, order: seq<Key>, j: Key, bytes: seq<byte>)
    requires SidsUnique(s) && j in s.agents
    ensures Shown(s, order + [j], bytes) == Shown(s, order, bytes)
      + if s.agents[j].sid.Some? && s.agents[j].sid == s.focused
        then [Msg(Cmd.Vt100Stream, s.focused.value, bytes)] else []
  {
    assert forall k :: multiset(order + [j])[k] == multiset(order)[k] + if k == j then 1 else 0;
    if s.agents[j].sid.Some? && s.agents[j].sid == s.focused {
      OwnerIsUnique(s, j, s.focused.value);
    }
  }

  lemma {:induction false} MirroredMessages(s: State, order: seq<Key>, bytes: seq<byte>)
    requires SidsUnique(s) && forall i :: 0 <= i < |order| ==> order[i] in s.agents
    ensures MirrorAll(s, order, bytes).outbox == s.outbox + Shown(s, order, bytes)
  {
    hide SidsUnique, Shown, Mirrored, Append;
    if order == [] {
      NothingShown(s, bytes);
    } else {
      var init, last := order[..|order| - 1], order[|order| - 1];
      MirroredMessages(s, init, bytes);
      MirroredSid(s, init, bytes, last);
      ShownSnoc(s, init, last, bytes);
      assert order == init + [last];
    }
  }

  lemma MirroredSid(s: State, order: seq<Key>, bytes: seq<byte>, k: Key)
    requires k in s.agents && forall i :: 0 <= i < |order| ==> order[i] in s.agents
    ensures var t := MirrorAll(s, order, bytes);
            k in t.agents && t.agents[k].sid == s.agents[k].sid && t.focused == s.focused
  {
    MirroredAgents(s, order, bytes);
    hide MirrorAll, AppendTimes;
  }

  lemma NothingShown(s: State, bytes: seq<byte>)
    ensures Shown(s, [], bytes) == []
  {
  }

  lemma MirrorAllIsStream(s: State, k: Key, attached: seq<Key>, bytes: seq<byte>)
    requires Inv(s) && !k.kind.Unknown? && k in s.agents && bytes != []
    requires NoDuplicates(attached)
    requires forall j :: j in attached <==> j in s.agents && s.agents[j].attached == Some(k)
    ensures MirrorAll(s, [k] + attached, bytes) == Stream(s, k, bytes).next
  {
    var order := [k] + attached;
    forall i | 0 <= i < |order| ensures order[i] in s.agents {
      assert i > 0 ==> order[i] == attached[i - 1] && order[i] in attached;
    }
    MirroredAgents(s, order, bytes);
    MirroredMessages(s, order, bytes);
    VisitsCounted(s, k, attached);
    hide Inv, SidsUnique, MirrorAll, Visits, Owner, FocusedOwner;
    assert MirrorAll(s, order, bytes).agents == Streamed(s, k, bytes);
    assert Shown(s, order, bytes) == StreamMessages(s, k, bytes);
  }

  lemma VisitsCounted(s: State, k: Key, attached: seq<Key>)
    requires NoDuplicates(attached)
    requires forall j :: j in attached <==> j in s.agents && s.agents[j].attached == Some(k)
    ensures forall j :: j in s.agents ==> multiset([k] + attached)[j] == Visits(s, k, j)
  {
    forall j | j in s.agents ensures multiset([k] + attached)[j] == Visits(s, k, j) {
      CountDistinct(attached, j);
    }
  }

  lemma BeatsEnumerate(s: State, bound: seq<Key>, order: seq<Sid>)
    requires SidsUnique(s) && NoDuplicates(bound) && |order| == |bound|
    requires forall k :: k in bound <==> k in s.agents && s.agents[k].sid.Some?
    requires forall i :: 0 <= i < |bound| ==> Owns(s, bound[i], order[i])
    ensures Enumerates(s, order)
  {
    forall i, j | 0 <= i < j < |order| ensures order[i] != order[j] {
      assert Owns(s, bound[i], order[i]) && Owns(s, bound[j], order[j]);
    }
    forall sid: Sid ensures sid in order <==> exists k :: Owns(s, k, sid) {
      if exists k :: Owns(s, k, sid) {
        var k :| Owns(s, k, sid);
        assert k in bound;
        var j :| 0 <= j < |bound| && bound[j] == k;
        assert order[j] == sid;
      }
      if sid in order {
        var j :| 0 <= j < |order| && order[j] == sid;
        assert Owns(s, bound[j], sid);
      }
    }
  }

  lemma ClearedKeys(agents: map<Key, Agent>, sid: Sid)
    ensures forall keep :: ClearOwners(agents, sid, keep).Keys == agents.Keys
  {
  }

  class BridgeDaemon {
    var registered: map<Key, Agent>
    var pendingBoardSessions: seq<Key>
    var passiveMissingCounts: map<Key, nat>
    var boardOutbox: seq<Msg>
    var focusedBoardSid: Option<Sid>

    ghost function View(): State
      reads this
    {
      State(registered, pendingBoardSessions, passiveMissingCounts, boardOutbox, focusedBoardSid)
    }

    ghost predicate Valid()
      reads this
    {
      Inv(View())
    }

    constructor ()
      ensures Valid() && View() == INITIAL
    {
      registered, pendingBoardSessions, passiveMissingCounts := map[], [], map[];
      boardOutbox, focusedBoardSid := [], None;
    }

    // ---- shared steps

    method EnqueueBoardSessionRequest(a: Agent)
      modifies this
      ensures View() == RequestBoardSession(old(View()), a)
    {
      if KeyOf(a) in pendingBoardSessions {
        return;
      }
      pendingBoardSessions := pendingBoardSessions + [KeyOf(a)];
      boardOutbox := boardOutbox + [HintMessage(a)];
    }

    /** Unbinds the agents listed, one by one. */
    method DetachAll(stale: seq<Key>)
      requires forall i :: 0 <= i < |stale| ==> stale[i] in registered
      modifies `registered
      ensures registered == Detached(old(registered), Elements(stale))
    {
      ghost var before := registered;
      DetachedNone(before);
      assert stale[..0] == [];
      hide Elements;
      for i := 0 to |stale|
        invariant registered == Detached(before, Elements(stale[..i]))
      {
        var k := stale[i];
        DetachOne(before, stale[..i], k);
        assert stale[..i + 1] == stale[..i] + [k];
        registered := registered[k := registered[k].(sid := None)];
      }
      assert stale[..|stale|] == stale;
    }

    method ClearBoardSidOwners(sid: Sid, keep: Option<Key>)
      modifies this
      ensures View() == old(View()).(
        agents := ClearOwners(old(registered), sid, keep),
        focused := if keep.None? && old(focusedBoardSid) == Some(sid) then None else old(focusedBoardSid))
    {
      var stale := Listing(set k | k in registered && registered[k].sid == Some(sid) && keep != Some(k));
      DetachedAll(registered, stale, sid, keep);
      hide Detached, Elements, ClearOwners;
      DetachAll(stale);
      if keep.None? && focusedBoardSid == Some(sid) {
        focusedBoardSid := None;
      }
    }

    // ---- JSON lines

    method RegisterAgent(r: Registration) returns (reply: Reply)
      requires Valid()
      modifies this
      ensures Valid() && Outcome(View(), reply) == Register(old(View()), r)
    {
      RegisterKeepsInv(View(), r);
      if r.kind == Unknown {
        return Refused(UnknownKind);
      }
      if IsBlank(r.id) {
        return Refused(MissingId);
      }
      if !ParentOf(r).valid {
        return Refused(UnknownKind);
      }
      var k := Key(r.kind, r.id);
      var agent := FreshAgent(r);
      var wasBound := false;
      if k in registered {
        var existing := registered[k];
        agent := Reregistered(agent, existing);
        wasBound := existing.sid.Some?;
      }
      if wasBound {
      } else if agent.sid.Some? {
        // A new agent has no sid and a known one brings its own: never here.
        assert false;
      } else if !IsTransportOnlyTerminal(agent) {
        EnqueueBoardSessionRequest(agent);
      }
      registered := registered[k := agent];
      reply := Accepted;
    }

    method ReportActivity(k: Key, status: AgentStatus) returns (reply: Reply)
      requires Valid()
      modifies this
      ensures Valid() && Outcome(View(), reply) == Activity(old(View()), k, status)
    {
      StepKeepsInv(View(), Event.ReportActivity(k, status));
      if k.kind == Unknown {
        return Refused(UnknownKind);
      }
      if IsBlank(k.id) {
        return Refused(MissingId);
      }
      if k in registered {
        registered := registered[k := registered[k].(status := status)];
        boardOutbox := boardOutbox + StatusMessage(registered[k]);
      }
      reply := Accepted;
    }

    method UpdateTokens(k: Key, usage: Usage) returns (reply: Reply)
      requires Valid()
      modifies this
      ensures Valid() && Outcome(View(), reply) == Tokens(old(View()), k, usage)
    {
      StepKeepsInv(View(), Event.UpdateTokens(k, usage));
      if k.kind == Unknown {
        return Refused(UnknownKind);
      }
      if k !in registered {
        return Refused(NoSuchAgent);
      }
      registered := registered[k := registered[k].(usage := usage)];
      boardOutbox := boardOutbox + TokenMessage(registered[k]);
      reply := Accepted;
    }

    method PushLiveRender(k: Key)
      requires k in registered
      modifies this
      ensures k in registered
      ensures View() == old(View()).(outbox := old(boardOutbox) + LiveRender(old(View()), registered[k]))
    {
      var a := registered[k];
      if !a.fromLaunch && a.sid.Some? && a.sid == focusedBoardSid {
        boardOutbox := boardOutbox + ReplayMessage(a);
      }
    }

    method AppendTurn(k: Key, role: Option<Role>, text: string, tsMs: U64) returns (reply: Reply)
      requires Valid()
      modifies this
      ensures Valid() && Outcome(View(), reply) == AddTurn(old(View()), k, role, text, tsMs)
    {
      StepKeepsInv(View(), Event.AppendTurn(k, role, text, tsMs));
      hide Inv, LiveRender;
      if k.kind == Unknown {
        return Refused(UnknownKind);
      }
      if role.None? {
        return Refused(UnknownRole);
      }
      if k !in registered {
        return Refused(NoSuchAgent);
      }
      registered := registered[k := WithTurn(registered[k], role.value, text, tsMs)];
      PushLiveRender(k);
      reply := Accepted;
    }

    method RequestPermission(k: Key, reqId: U64, tool: string, args: string) returns (reply: Reply)
      requires Valid()
      modifies this
      ensures Valid() && Outcome(View(), reply) == AskPermission(old(View()), k, reqId, tool, args)
    {
      AskPermissionKeepsInv(View(), k, reqId, tool, args);
      if k.kind == Unknown {
        return Refused(UnknownKind);
      }
      if k !in registered {
        return Refused(NoSuchAgent);
      }
      var agent := WithRequest(registered[k], reqId, tool, args);
      registered := registered[k := agent];
      boardOutbox := boardOutbox
        + PermissionMessage(agent, agent.pendingPermissions[|agent.pendingPermissions| - 1]);
      PushLiveRender(k);
      reply := Accepted;
    }

    method ResolvePermission(k: Key, reqId: U64) returns (reply: Reply)
      requires Valid()
      modifies this
      ensures Valid() && Outcome(View(), reply) == Resolve(old(View()), k, reqId)
    {
      ResolveKeepsInv(View(), k, reqId);
      if k.kind == Unknown {
        return Refused(UnknownKind);
      }
      if k !in registered {
        return Refused(NoSuchAgent);
      }
      var before := |registered[k].pendingPermissions|;
      registered := registered[k := registered[k].(
        pendingPermissions := DropRequest(registered[k].pendingPermissions, reqId))];
      reply := Removed(before - |registered[k].pendingPermissions|);
    }

    method PollPermission(k: Key, reqId: U64) returns (reply: Reply)
      requires Valid()
      modifies this
      ensures Valid() && Outcome(View(), reply) == Poll(old(View()), k, reqId)
    {
      PollKeepsInv(View(), k, reqId);
      hide Inv;
      if k.kind == Unknown {
        return Refused(UnknownKind);
      }
      if k !in registered {
        return Refused(NoSuchAgent);
      }
      var agent := registered[k];
      if reqId in agent.resolvedPermissions {
        reply := Decided(agent.resolvedPermissions[reqId]);
        registered := registered[k := agent.(resolvedPermissions := agent.resolvedPermissions - {reqId})];
      } else {
        reply := Waiting(HasRequest(agent.pendingPermissions, reqId));
      }
    }

    /** The body of the mirror loop. */
    method MirrorTo(j: Key, bytes: seq<byte>)
      modifies this
      ensures View() == MirrorOne(old(View()), j, bytes)
    {
      if j in registered {
        var agent := registered[j];
        var ring := AppendTerminalBytes(agent.ring, bytes);
        registered := registered[j := agent.(ring := ring)];
        if agent.sid.Some? && agent.sid == focusedBoardSid {
          boardOutbox := boardOutbox + [Msg(Cmd.Vt100Stream, agent.sid.value, bytes)];
        }
      }
    }

    method StreamTerminal(k: Key, bytes: seq<byte>) returns (reply: Reply)
      requires Valid()
      modifies this
      ensures Valid() && Outcome(View(), reply) == Stream(old(View()), k, bytes)
    {
      StreamKeepsInv(View(), k, bytes);
      if k.kind == Unknown {
        return Refused(UnknownKind);
      }
      if k !in registered {
        return Refused(NoSuchAgent);
      }
      if bytes != [] {
        var attached := Listing(set j | j in registered && registered[j].attached == Some(k));
        MirrorAllIsStream(View(), k, attached, bytes);
        MirrorLoop([k] + attached, bytes);
      }
      reply := Accepted;
    }

    method MirrorLoop(mirrors: seq<Key>, bytes: seq<byte>)
      modifies this
      ensures View() == MirrorAll(old(View()), mirrors, bytes)
    {
      ghost var before := View();
      for i := 0 to |mirrors|
        invariant View() == MirrorAll(before, mirrors[..i], bytes)
      {
        assert mirrors[..i + 1][..i] == mirrors[..i];
        MirrorTo(mirrors[i], bytes);
      }
      assert mirrors[..|mirrors|] == mirrors;
    }

    method AbortSession(k: Key) returns (reply: Reply)
      requires Valid()
      modifies this
      ensures Valid() && Outcome(View(), reply) == Abort(old(View()), k)
    {
      AbortKeepsInv(View(), k);
      if k.kind == Unknown {
        return Refused(UnknownKind);
      }
      if k !in registered {
        return Refused(NoSuchAgent);
      }
      registered := registered - {k};
      pendingBoardSessions := Without(pendingBoardSessions, k);
      reply := Accepted;
    }

    // ---- passive discovery

    method RegisterDiscoveredSessions(ds: seq<Discovered>) returns (added: nat)
      requires Valid()
      modifies this
      ensures Valid() && View() == Discover(old(View()), ds)
      ensures |registered| == |old(registered)| + added
    {
      ghost var before := View();
      DiscoverKeepsInv(before, ds);
      added := 0;
      for i := 0 to |ds|
        invariant View() == Discover(before, ds[..i])
        invariant |registered| == |before.agents| + added
      {
        assert ds[..i + 1][..i] == ds[..i];
        var d := ds[i];
        var k := Key(d.kind, d.id);
        if k in registered {
          passiveMissingCounts := passiveMissingCounts - {k};
        } else {
          var agent := DiscoveredAgent(d);
          EnqueueBoardSessionRequest(agent);
          passiveMissingCounts := passiveMissingCounts - {k};
          registered := registered[k := agent];
          added := added + 1;
        }
      }
      assert ds[..|ds|] == ds;
    }

    method IngestDiscoveredTurns(ts: seq<DiscoveredTurn>)
      requires Valid()
      modifies this
      ensures Valid() && View() == Ingest(old(View()), ts)
    {
      ghost var before := View();
      IngestKeepsInv(before, ts);
      for i := 0 to |ts|
        invariant View() == Ingest(before, ts[..i])
      {
        assert ts[..i + 1][..i] == ts[..i];
        var t := ts[i];
        var k := Key(t.kind, t.id);
        if k in registered {
          registered := registered[k := WithTurn(registered[k], t.role, t.text, 0)];
        }
      }
      assert ts[..|ts|] == ts;
    }

    method PruneMissingPassiveSessions(latest: set<Key>) returns (dropped: seq<Key>)
      requires Valid()
      modifies this
      ensures Valid() && View() == Prune(old(View()), latest)
      ensures forall k :: k in dropped <==> k in Dropped(old(View()), latest)
    {
      ghost var before := View();
      PruneKeepsInv(before, latest);
      passiveMissingCounts := passiveMissingCounts - latest;
      assert passiveMissingCounts == Counted(before, latest, {});
      var candidates := Listing(set k | k in registered && IsPassive(registered[k]));
      dropped := CountLoop(candidates, latest, before);
      PruneFromCounts(before, latest, Elements(candidates), Elements(dropped));
      DropAll(dropped);
    }

    /** The candidate loop of a prune: count the missed polls, collect who is out of grace. */
    method CountLoop(candidates: seq<Key>, latest: set<Key>, ghost before: State) returns (dropped: seq<Key>)
      requires NoDuplicates(candidates)
      requires forall i :: 0 <= i < |candidates| ==> candidates[i] in registered && IsPassive(registered[candidates[i]])
      requires View() == before.(missing := Counted(before, latest, {}))
      modifies this
      ensures View() == before.(missing := Counted(before, latest, Elements(candidates)))
      ensures Elements(dropped) == Elements(candidates) * Dropped(before, latest)
    {
      hide Dropped, Counted, Elements;
      dropped := [];
      NoElements();
      for i := 0 to |candidates|
        invariant View() == before.(missing := Counted(before, latest, Elements(candidates[..i])))
        invariant Elements(dropped) == Elements(candidates[..i]) * Dropped(before, latest)
      {
        var k := candidates[i];
        CountOne(before, latest, candidates[..i], k);
        assert candidates[..i + 1] == candidates[..i] + [k];
        if k !in latest {
          if k in passiveMissingCounts {
            var count := Min(passiveMissingCounts[k] + 1, 255);
            passiveMissingCounts := passiveMissingCounts[k := count];
            if count >= GRACE_POLLS {
              OneMoreElement(dropped, k);
              dropped := dropped + [k];
            }
          } else {
            passiveMissingCounts := passiveMissingCounts[k := 1];
          }
        }
      }
      assert candidates[..|candidates|] == candidates;
    }

    /** The last loop of a prune: forget the agents that were dropped. */
    method DropAll(dropped: seq<Key>)
      modifies this
      ensures View() == old(View()).(
        agents := old(registered) - Elements(dropped),
        pending := WithoutAll(old(pendingBoardSessions), Elements(dropped)),
        missing := old(passiveMissingCounts) - Elements(dropped))
    {
      ghost var before := View();
      WithoutNone(before.pending);
      NoElements();
      assert dropped[..0] == [];
      hide Elements, WithoutAll, Without;
      for i := 0 to |dropped|
        invariant View() == before.(
          agents := before.agents - Elements(dropped[..i]),
          pending := WithoutAll(before.pending, Elements(dropped[..i])),
          missing := before.missing - Elements(dropped[..i]))
      {
        var k := dropped[i];
        assert dropped[..i + 1] == dropped[..i] + [k];
        OneMoreElement(dropped[..i], k);
        RemoveOneMore(before.agents, Elements(dropped[..i]), k);
        RemoveOneMore(before.missing, Elements(dropped[..i]), k);
        WithoutAllGrows(before.pending, Elements(dropped[..i]), k);
        registered := registered - {k};
        pendingBoardSessions := Without(pendingBoardSessions, k);
        passiveMissingCounts := passiveMissingCounts - {k};
      }
      assert dropped[..|dropped|] == dropped;
    }

    static lemma {:induction false} WithoutAllGrows(keys: seq<Key>, gone: set<Key>, k: Key)
      ensures WithoutAll(keys, gone + {k}) == Without(WithoutAll(keys, gone), k)
    {
      if keys != [] {
        WithoutAllGrows(keys[1..], gone, k);
      }
    }

    static lemma {:induction false} WithoutNone(keys: seq<Key>)
      ensures WithoutAll(keys, {}) == keys
    {
      if keys != [] {
        WithoutNone(keys[1..]);
      }
    }

    // ---- board messages

    method HandleBoardMessage(cmd: Cmd, sid: Sid, payload: seq<byte>) returns (reply: Reply)
      requires Valid()
      modifies this
      ensures Valid() && Outcome(View(), reply) == Board(old(View()), cmd, sid, payload)
    {
      match cmd {
        case SessionResponse => reply := OnSessionResponse(sid, payload);
        case SessionFocus =>
          FocusBoardSid(sid);
          reply := Accepted;
        case PermissionRes => reply := OnPermissionResponse(sid, payload);
        case SessionInvalid => reply := OnSessionInvalid(sid);
        case EncoderEvent => reply := Accepted;
        case KeyEvent => reply := Accepted;
        case _ => reply := Refused(UnsupportedCommand);
      }
    }

    method OnSessionResponse(sid: Sid, payload: seq<byte>) returns (reply: Reply)
      modifies this
      ensures old(Valid()) ==> Valid()
      ensures Outcome(View(), reply) == HandleSessionResponse(old(View()), sid, payload)
    {
      hide Inv, SyncMessages, ClearOwners;
      if Valid() {
        SessionResponseKeepsInv(View(), sid, payload);
      }
      ClearedKeys(registered, sid);
      if sid == 0 {
        return Refused(ZeroSid);
      }
      var status := if payload == [] then SESSION_OK else payload[0];
      if status != SESSION_OK && status != SESSION_CREATED {
        return Refused(RejectedSession(status));
      }
      if pendingBoardSessions == [] {
        return Refused(NothingPending);
      }
      var k := pendingBoardSessions[0];
      pendingBoardSessions := pendingBoardSessions[1..];
      var oldSid := if k in registered then registered[k].sid else None;
      ClearBoardSidOwners(sid, Some(k));
      if k !in registered {
        return Refused(PendingVanished);
      }
      BindBoardSid(k, sid, oldSid);
      reply := Accepted;
    }

    /** The agent is bound, takes the focus along from its old sid, and is announced. */
    method BindBoardSid(k: Key, sid: Sid, oldSid: Option<Sid>)
      requires k in registered
      modifies `registered, `focusedBoardSid, `boardOutbox
      ensures var agent := old(registered)[k].(sid := Some(sid));
              && registered == old(registered)[k := agent]
              && boardOutbox == old(boardOutbox) + SyncMessages(agent)
      ensures focusedBoardSid ==
                if oldSid.Some? && old(focusedBoardSid) == oldSid then Some(sid) else old(focusedBoardSid)
    {
      hide SyncMessages;
      var agent := registered[k].(sid := Some(sid));
      registered := registered[k := agent];
      if oldSid.Some? && focusedBoardSid == oldSid {
        focusedBoardSid := Some(sid);
      }
      boardOutbox := boardOutbox + SyncMessages(agent);
    }

    method OnSessionInvalid(sid: Sid) returns (reply: Reply)
      requires Valid()
      modifies this
      ensures Valid() && Outcome(View(), reply) == HandleSessionInvalid(old(View()), sid)
    {
      SessionInvalidKeepsInv(View(), sid);
      if sid != 0 {
        ClearBoardSidOwners(sid, None);
      }
      reply := Accepted;
    }

    method FocusBoardSid(sid: Sid)
      requires Valid()
      modifies this
      ensures Valid() && View() == Focus(old(View()), sid).next
    {
      if sid == 0 {
        return;
      }
      focusedBoardSid := Some(sid);
      if k :| k in registered && registered[k].sid == Some(sid) {
        OwnerIsUnique(old(View()), k, sid);
        boardOutbox := boardOutbox + ReplayMessage(registered[k]);
      } else {
        assert forall j :: !Owns(old(View()), j, sid);
      }
    }

    method OnPermissionResponse(sid: Sid, payload: seq<byte>) returns (reply: Reply)
      requires Valid()
      modifies this
      ensures Valid() && Outcome(View(), reply) == HandlePermissionResponse(old(View()), sid, payload)
    {
      PermissionResponseKeepsInv(View(), sid, payload);
      assert SidsUnique(View());
      hide Inv, SidsUnique, DecodePermissionResponse, WithDecision, DropRequest;
      if sid == 0 {
        return Refused(ZeroSid);
      }
      var decoded := DecodePermissionResponse(payload);
      if decoded.None? {
        return Refused(BadPayload);
      }
      if k :| k in registered && registered[k].sid == Some(sid) {
        OwnerIsUnique(View(), k, sid);
        registered := registered[k := WithDecision(registered[k], decoded.value.0, decoded.value.1)];
        reply := Accepted;
      } else {
        assert forall j :: !Owns(View(), j, sid);
        reply := Refused(NoSuchSid);
      }
    }

    // ---- timers and the outbox

    method PushHeartbeats() returns (order: seq<Sid>)
      requires Valid()
      modifies this
      ensures Enumerates(old(View()), order)
      ensures Valid() && View() == Beat(old(View()), order)
    {
      ghost var before := View();
      boardOutbox := boardOutbox + [HeartbeatMessage(0)];
      var bound := Listing(set k | k in registered && registered[k].sid.Some?);
      order := BeatLoop(bound);
      BeatsEnumerate(before, bound, order);
    }

    method BeatLoop(bound: seq<Key>) returns (order: seq<Sid>)
      requires forall i :: 0 <= i < |bound| ==> bound[i] in registered && registered[bound[i]].sid.Some?
      modifies this
      ensures |order| == |bound|
      ensures forall i :: 0 <= i < |bound| ==> Owns(old(View()), bound[i], order[i])
      ensures View() == old(View()).(outbox := old(boardOutbox)
        + seq(|order|, i requires 0 <= i < |order| => HeartbeatMessage(order[i])))
    {
      ghost var before := View();
      order := [];
      for i := 0 to |bound|
        invariant |order| == i
        invariant forall j :: 0 <= j < i ==> Owns(before, bound[j], order[j])
        invariant View() == before.(outbox := before.outbox
          + seq(|order|, j requires 0 <= j < |order| => HeartbeatMessage(order[j])))
      {
        var sid := registered[bound[i]].sid.value;
        order := order + [sid];
        boardOutbox := boardOutbox + [HeartbeatMessage(sid)];
      }
    }

    method FlushBoardOutbox(hid: HidLink) returns (reply: Reply)
      requires Valid()
      modifies this, hid
      ensures Valid() && Outcome(View(), reply) == FlushOutbox(old(View()), hid.connected, old(hid.accepts))
      ensures hid.connected == old(hid.connected)
      ensures hid.wire == old(hid.wire) + if hid.connected then SentFrames(old(boardOutbox), old(hid.accepts)) else []
    {
      ghost var before, wire := View(), hid.wire + SentFrames(boardOutbox, hid.accepts);
      FlushKeepsInv(before, Unsent(boardOutbox, hid.accepts));
      hide Inv;
      if !hid.connected {
        return Accepted;
      }
      while boardOutbox != []
        invariant View() == before.(outbox := boardOutbox) && hid.connected
        invariant Unsent(boardOutbox, hid.accepts) == Unsent(before.outbox, old(hid.accepts))
        invariant hid.wire + SentFrames(boardOutbox, hid.accepts) == wire
        decreases |boardOutbox|
      {
        ghost var outbox, sent, accepts := boardOutbox, hid.wire, hid.accepts;
        var msg := boardOutbox[0];
        boardOutbox := boardOutbox[1..];
        var frames := FramesOf(msg);
        var ok := SendFrames(hid, frames);
        if !ok {
          boardOutbox := [msg] + boardOutbox;
          assert boardOutbox == outbox;
          return Refused(SendFailed);
        }
        assert sent + (frames + SentFrames(boardOutbox, hid.accepts))
            == sent + frames + SentFrames(boardOutbox, hid.accepts);
      }
      reply := Accepted;
    }

    static lemma PollKeepsInv(s: State, k: Key, reqId: U64)
      requires Inv(s)
      ensures Inv(Poll(s, k, reqId).next)
    {
      StepKeepsInv(s, Event.PollPermission(k, reqId));
    }

    static lemma FlushKeepsInv(s: State, left: seq<Msg>)
      requires Inv(s)
      ensures Inv(s.(outbox := left))
    {
    }

    /** The inner loop of the flush: frame by frame, stopping at the first failure. */
    static method SendFrames(hid: HidLink, frames: seq<Frame>) returns (ok: bool)
      requires hid.connected
      modifies hid
      ensures hid.connected
      ensures ok == (|frames| <= old(hid.accepts))
      ensures ok ==> hid.accepts == old(hid.accepts) - |frames| && hid.wire == old(hid.wire) + frames
      ensures !ok ==> hid.accepts == 0 && hid.wire == old(hid.wire) + frames[..old(hid.accepts)]
    {
      for i := 0 to |frames|
        invariant i <= old(hid.accepts) && hid.accepts == old(hid.accepts) - i
        invariant hid.connected && hid.wire == old(hid.wire) + frames[..i]
      {
        ok := hid.Send(frames[i]);
        if !ok {
          return;
        }
        assert frames[..i + 1] == frames[..i] + [frames[i]];
      }
      assert frames[..|frames|] == frames;
      ok := true;
    }
  }
}

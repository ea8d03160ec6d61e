/**
 * The Python daemon: session table, terminal buffers, owners, focus and the
 * queue of packets for the board, kept in step by the invalidation callback and
 * the screen sink. Every handler is one step; the callbacks that a session or
 * router method makes are handled, in order, right after it.
 */
module PythonDaemon {
  import opened Wrappers
  import opened Sequences
  import opened Utf8
  import Codec
  import opened Sessions
  import opened ScreenRouter

  const HID_TX_QUEUE_LIMIT: nat := 4096
  const SESSION_BROADCAST: nat := 0

  /** The identity of a connected client. */
  type Client = nat

  datatype Kind =
    | RequestSession
    | SessionHeartbeat
    | Vt100Stream
    | StatusUpdate
    | WindowActivate
    | WindowSwitch
    | OtherKind(code: nat)

  datatype Packet = Packet(kind: Kind, sid: nat, payload: seq<byte>)

  datatype Reply = Granted(sid: nat, status: Status) | Revoked(sid: nat, status: Status) | Forwarded(packet: Packet)

  datatype Sent = Sent(client: Client, reply: Reply)

  /** How a write to the device ends: done, the device lost, or the packet not accepted. */
  datatype WriteOutcome = Written | DeviceLost | NotEncodable

  /** A packet put on the board queue, and the focus at that moment. */
  datatype Queued = Queued(packet: Packet, focus: Option<nat>)

  function FragmentPayload(data: seq<byte>): seq<seq<byte>> {
    if data == [] then [[]] else Codec.Chunks(data, 58)
  }

  function StreamPackets(sid: nat, data: seq<byte>): (packets: seq<Packet>)
    ensures forall i :: 0 <= i < |packets| ==> packets[i].kind.Vt100Stream? && packets[i].sid == sid
  {
    var parts := FragmentPayload(data);
    seq(|parts|, i requires 0 <= i < |parts| => Packet(Vt100Stream, sid, parts[i]))
  }

  function Payloads(packets: seq<Packet>): seq<seq<byte>> {
    seq(|packets|, i requires 0 <= i < |packets| => packets[i].payload)
  }

  /** The board's concatenation of the packets is the data. */
  lemma StreamPacketsCarryData(sid: nat, data: seq<byte>)
    ensures Flatten(Payloads(StreamPackets(sid, data))) == data
    ensures forall i :: 0 <= i < |StreamPackets(sid, data)| ==> |StreamPackets(sid, data)[i].payload| <= 58
    ensures |StreamPackets(sid, data)| == 1 <==> |data| <= 58
  {
    var packets := StreamPackets(sid, data);
    assert Payloads(packets) == FragmentPayload(data);
    if data == [] {
      assert Flatten([data]) == data + Flatten([data][1..]);
    } else {
      Codec.ChunksAreBounded(data, 58);
    }
  }

  function Live(table: Table): set<nat> {
    set sid | sid in Sids(table)
  }

  function SidSet(sids: seq<nat>): set<nat> {
    set sid | sid in sids
  }

  lemma LiveDropped(table: Table, sids: seq<nat>)
    ensures Live(Dropped(table, sids)) == Live(table) - SidSet(sids)
  {
    forall sid ensures sid in Live(Dropped(table, sids)) <==> sid in Live(table) - SidSet(sids) {
      DroppedSids(table, sids, sid);
    }
  }

  lemma LiveAdded(table: Table, s: Session)
    ensures Live(table + [s]) == Live(table) + {s.sid}
  {
    assert Sids(table + [s]) == Sids(table) + [s.sid];
  }

  lemma NoticedSnoc(notices: seq<Notice>, i: nat)
    requires i < |notices|
    ensures SidSet(NoticedSids(notices[..i + 1])) == SidSet(NoticedSids(notices[..i])) + {notices[i].sid}
  {
    assert NoticedSids(notices[..i + 1]) == NoticedSids(notices[..i]) + [notices[i].sid];
  }

  /** The sessions reported to the callback are those that left the table for a new one. */
  lemma RemovedAreReported(table: Table, cutoff: int, evicted: seq<nat>, s: Session, said: seq<Notice>)
    ensures var notices := said + Notices(Stale(table, cutoff), Expired) + Notices(evicted, Reclaimed);
            var gone := SidSet(NoticedSids(notices[|said|..]));
            && notices[|said|..] == Notices(Stale(table, cutoff), Expired) + Notices(evicted, Reclaimed)
            && gone == SidSet(Stale(table, cutoff)) + SidSet(evicted)
            && Live(Staying(table, cutoff, evicted) + [s]) == Live(table) - gone + {s.sid}
            && (s.sid !in Sids(Staying(table, cutoff, evicted)) ==> s.sid !in Live(table) - gone)
  {
    var expired := Stale(table, cutoff);
    LiveDropped(table, expired);
    LiveDropped(Dropped(table, expired), evicted);
    LiveAdded(Dropped(Dropped(table, expired), evicted), s);
    var notices := said + Notices(expired, Expired) + Notices(evicted, Reclaimed);
    assert notices[|said|..] == Notices(expired, Expired) + Notices(evicted, Reclaimed);
    assert NoticedSids(notices[|said|..]) == expired + evicted;
  }

  lemma LiveTouched(table: Table, sid: nat, now: int)
    ensures Live(Touched(table, sid, now)) == Live(table)
  {
  }

  lemma SidSetSnoc(sids: seq<nat>, sid: nat)
    ensures SidSet(sids + [sid]) == SidSet(sids) + {sid}
  {
  }

  lemma SidSetNothing()
    ensures SidSet([]) == {}
  {
  }

  lemma SidSetOne(sid: nat, status: Status)
    ensures SidSet([sid]) == {sid} && SidSet(NoticedSids([Notice(sid, status)])) == {sid}
    ensures SidSet(NoticedSids([])) == {}
  {
    assert NoticedSids([Notice(sid, status)]) == [sid];
  }

  lemma InSidSet(sids: seq<nat>, i: nat)
    requires i < |sids|
    ensures sids[i] in SidSet(sids)
  {
  }

  lemma NothingLeftToRemove(owners: map<nat, Client>, sids: set<nat>)
    requires sids !! owners.Keys
    ensures owners - sids == owners
  {
  }

  lemma LiveAre(table: Table, sid: nat)
    ensures sid in Live(table) <==> sid in Sids(table)
  {
  }

  lemma RangeOfNext(manager: SessionManager)
    requires manager.Valid()
    ensures 1 <= manager.nextSid <= manager.max
  {
  }

  lemma LiveIsNotBroadcast(manager: SessionManager)
    requires manager.Valid()
    ensures SESSION_BROADCAST !in Live(manager.sessions)
  {
  }

  lemma NewNotices(said: seq<Notice>, more: seq<Notice>)
    ensures (said + more)[|said|..] == more
  {
  }

  lemma NoticesAre(said: seq<Notice>, expired: seq<nat>)
    ensures NoticedSids((said + Notices(expired, Expired))[|said|..]) == expired
  {
    assert (said + Notices(expired, Expired))[|said|..] == Notices(expired, Expired);
  }

  /** The sessions a client owns, but for one. */
  function Owned(owners: map<nat, Client>, client: Client, except: nat): set<nat> {
    set sid | sid in owners && owners[sid] == client && sid != except
  }

  lemma NobodyOwns(owners: map<nat, Client>, client: Client, except: nat)
    ensures owners == map[] ==> Owned(owners, client, except) == {}
  {
  }

  lemma OwnedAreGone(owners: map<nat, Client>, sids: seq<nat>, client: Client, except: nat)
    requires SidSet(sids) == Owned(owners, client, except)
    ensures forall sid :: sid in owners - SidSet(sids) && sid != except ==> owners[sid] != client
    ensures SidSet(sids) <= owners.Keys && except !in SidSet(sids)
  {
  }

  /** Terminal output is queued only for the session focused at that moment. */
  ghost predicate OnlyFocusedStreams(log: seq<Queued>) {
    forall i :: 0 <= i < |log| && log[i].packet.kind.Vt100Stream? ==> log[i].focus == Some(log[i].packet.sid)
  }

  /** Python's `remove`: the first occurrence goes, if there is one. */
  function WithoutFirst<T(==)>(s: seq<T>, x: T): seq<T> {
    if s == [] then [] else if s[0] == x then s[1..] else [s[0]] + WithoutFirst(s[1..], x)
  }

  lemma WithoutFirstNext<T>(s: seq<T>, i: nat, x: T)
    requires i < |s|
    ensures s[..i] + WithoutFirst(s[i..], x) ==
              if s[i] == x then s[..i] + s[i + 1..] else s[..i + 1] + WithoutFirst(s[i + 1..], x)
  {
    assert s[i..][0] == s[i] && s[i..][1..] == s[i + 1..];
    assert s[..i + 1] == s[..i] + [s[i]];
  }

  lemma WithoutFirstOfNone<T>(s: seq<T>, i: nat, x: T)
    requires i == |s|
    ensures s[..i] + WithoutFirst(s[i..], x) == s
  {
  }

  lemma QueueNothing(queue: seq<Packet>, packets: seq<Packet>)
    ensures queue + packets[..0] == queue
  {
  }

  lemma QueueNext(queue: seq<Packet>, packets: seq<Packet>, i: nat)
    requires i < |packets|
    ensures queue + packets[..i] + [packets[i]] == queue + packets[..i + 1]
  {
  }

  lemma QueueAll(queue: seq<Packet>, packets: seq<Packet>, i: nat)
    requires i == |packets|
    ensures queue + packets[..i] == queue + packets
  {
  }

  lemma RemoveMore(owners: map<nat, Client>, keys: set<nat>, gone: set<nat>, sid: nat)
    ensures owners - gone - {sid} == owners - (gone + {sid})
    ensures keys - gone - {sid} == keys - (gone + {sid})
  {
  }

  ghost predicate BoardInStep(open: bool, focused: Option<nat>, buffers: map<nat, Chunks>, own: map<nat, Chunks>,
                              shown: seq<byte>, replayed: bool)
  {
    open && focused.Some? && focused.value in buffers && focused.value in own ==>
      ShownOk(shown, replayed, buffers[focused.value], own[focused.value])
  }

  /** Registering a session changes nothing for the one in focus. */
  lemma RegisteredInStep(open: bool, focused: Option<nat>, buffers: map<nat, Chunks>, own: map<nat, Chunks>,
                         shown: seq<byte>, replayed: bool, sid: nat)
    requires BoardInStep(open, focused, buffers, own, shown, replayed)
    requires focused.Some? ==> focused.value in buffers && focused.value in own
    ensures BoardInStep(open, focused, if sid in buffers then buffers else buffers[sid := []],
                        if sid in own then own else own[sid := []], shown, replayed)
  {
    hide ShownOk;
  }

  lemma NothingShownYet(held: Chunks, all: Chunks)
    ensures ShownOk([], false, held, all)
  {
    EndsWithNothing(Flatten(all));
  }

  lemma ReplayShown(front: seq<byte>, held: Chunks, all: Chunks)
    ensures ShownOk([] + (front + Flatten(held)), true, held, all)
  {
    EndsWithSuffix(front, Flatten(held));
    assert [] + (front + Flatten(held)) == front + Flatten(held);
  }

  lemma FocusedBuffer(router: Vt100Router, sid: nat)
    requires router.Valid() && sid in router.buffers
    ensures sid in router.own
    ensures ShownOk([], false, router.buffers[sid], router.own[sid])
    ensures ShownOk([] + (SCREEN_CLEAR + Flatten(router.buffers[sid])), true, router.buffers[sid], router.own[sid])
  {
    BufferIsOwned(router.order, router.buffers, router.sizes, router.own, router.bufferBytes, sid);
    NothingShownYet(router.buffers[sid], router.own[sid]);
    ReplayShown(SCREEN_CLEAR, router.buffers[sid], router.own[sid]);
  }

  lemma ClosedInStep(focused: Option<nat>, buffers: map<nat, Chunks>, own: map<nat, Chunks>,
                     shown: seq<byte>, replayed: bool)
    ensures BoardInStep(false, focused, buffers, own, shown, replayed)
  {
  }

  /** What the board was sent for the session once it is in focus. */
  lemma FocusStaysInStep(router: Vt100Router, open: bool, focused: Option<nat>, shown: seq<byte>, replayed: bool,
                         sid: nat)
    requires router.Valid() && sid in router.buffers
    requires BoardInStep(open, focused, router.buffers, router.own, shown, replayed)
    requires focused.Some? ==> router.active == focused
    ensures var switched := router.active != Some(sid);
            var before := if focused == Some(sid) then shown else [];
            BoardInStep(open, Some(sid), router.buffers, router.own,
                        if switched then before + (SCREEN_CLEAR + Flatten(router.buffers[sid])) else before,
                        if focused == Some(sid) then replayed else switched)
  {
    FocusedBuffer(router, sid);
    hide ShownOk, SCREEN_CLEAR, Flatten, BuffersOk, InStep;
  }

  /** A session out of focus may go; so may the one in focus, and with it the focus. */
  lemma RemovedInStep(open: bool, focused: Option<nat>, buffers: map<nat, Chunks>, own: map<nat, Chunks>,
                      shown: seq<byte>, replayed: bool, sid: nat)
    requires BoardInStep(open, focused, buffers, own, shown, replayed)
    ensures focused != Some(sid) ==> BoardInStep(open, focused, buffers - {sid}, own - {sid}, shown, replayed)
    ensures forall more :: BoardInStep(open, None, buffers - {sid}, own - {sid}, more, replayed)
  {
    hide ShownOk;
  }

  lemma FocusedGrows(router: Vt100Router, open: bool, focused: Option<nat>, shown: seq<byte>, replayed: bool,
                     sid: nat, data: seq<byte>)
    requires router.Valid() && sid in router.buffers
    requires BoardInStep(open, focused, router.buffers, router.own, shown, replayed)
    ensures sid in router.own
    ensures BoardInStep(open, focused,
                        router.buffers[sid := Fitting(router.buffers[sid] + [data], router.bufferBytes)],
                        router.own[sid := router.own[sid] + [data]],
                        if focused == Some(sid) then shown + data else shown, replayed)
  {
    BufferIsOwned(router.order, router.buffers, router.sizes, router.own, router.bufferBytes, sid);
    hide ShownOk, Fitting, BuffersOk, InStep;
    if open && focused == Some(sid) {
      GrownIsShown(shown, replayed, router.buffers[sid], router.own[sid], data, router.bufferBytes);
    }
  }

  lemma NothingToEvict(cutoff: int, said: seq<Notice>)
    ensures Stale([], cutoff) == [] && Dropped([], []) == [] && Sids([]) == []
    ensures said + Notices([], Expired) + Notices([], Reclaimed) == said
  {
  }

  lemma NobodyToEvict(cutoff: int, max: nat, sid: nat, evicted: seq<nat>)
    requires max > 0
    ensures MadeRoomFor([], cutoff, max, sid, evicted) ==> evicted == []
  {
  }

  lemma NoSids(sids: seq<nat>)
    ensures SidSet(sids) == {} ==> sids == []
    ensures Live([]) == {}
  {
    if sids != [] {
      InSidSet(sids, 0);
    }
  }

  lemma NoOwners(owners: map<nat, Client>)
    ensures owners.Keys == {} ==> owners == map[]
  {
  }

  function Waiters(pending: seq<(Client, string)>): (clients: seq<Client>)
    ensures |clients| == |pending|
  {
    seq(|pending|, i requires 0 <= i < |pending| => pending[i].0)
  }

  lemma WaitersSnoc(pending: seq<(Client, string)>, client: Client, hint: string)
    ensures Waiters(pending + [(client, hint)]) == Waiters(pending) + [client]
  {
  }

  lemma WaitersNext(pending: seq<(Client, string)>)
    requires pending != []
    ensures Waiters(pending) == [pending[0].0] + Waiters(pending[1..])
  {
  }

  /** What waiting clients are told when the device is given up. */
  function Refusals(pending: seq<(Client, string)>): (rs: seq<Sent>)
    ensures |rs| == |pending|
  {
    seq(|pending|, i requires 0 <= i < |pending| => Sent(pending[i].0, Revoked(SESSION_BROADCAST, Invalid)))
  }

  lemma RefusalsSnoc(pending: seq<(Client, string)>, next: (Client, string))
    ensures Refusals(pending + [next]) == Refusals(pending) + [Sent(next.0, Revoked(SESSION_BROADCAST, Invalid))]
  {
  }

  lemma AllRefused(pending: seq<(Client, string)>, sent: seq<Sent>)
    ensures pending[..|pending|] == pending && pending[..0] == [] && sent + Refusals([]) == sent
  {
  }

  /** Who is told that these sessions are gone: the owner each then has. */
  function Revocations(owners: map<nat, Client>, notices: seq<Notice>): seq<Sent> {
    if notices == [] then []
    else
      var init, last := notices[..|notices| - 1], notices[|notices| - 1];
      Revocations(owners, init) +
      if last.sid in owners - SidSet(NoticedSids(init))
      then [Sent(owners[last.sid], Revoked(last.sid, last.status))] else []
  }

  lemma RevocationsSnoc(owners: map<nat, Client>, notices: seq<Notice>, i: nat)
    requires i < |notices|
    ensures Revocations(owners, notices[..i + 1]) == Revocations(owners, notices[..i]) +
              if notices[i].sid in owners - SidSet(NoticedSids(notices[..i]))
              then [Sent(owners[notices[i].sid], Revoked(notices[i].sid, notices[i].status))] else []
  {
    assert notices[..i + 1][..i] == notices[..i];
  }

  lemma RevokedOne(owners: map<nat, Client>, sid: nat, status: Status, sent: seq<Sent>)
    ensures Revocations(owners, [Notice(sid, status)]) ==
              if sid in owners then [Sent(owners[sid], Revoked(sid, status))] else []
    ensures sent + Revocations(owners, []) == sent
  {
    var one := [Notice(sid, status)];
    assert one[..0] == [];
    RevocationsSnoc(owners, one, 0);
    assert one[..1] == one && NoticedSids([]) == [];
  }

  lemma {:induction false} NobodyLeftToTell(owners: map<nat, Client>, sent: seq<Sent>, sids: seq<nat>, status: Status)
    requires SidSet(sids) !! owners.Keys
    ensures sent + Revocations(owners, Notices(sids, status)) == sent
  {
    hide Revocations, Notices, SidSet;
    if sids == [] {
      NothingNoticed(owners, sent, status);
    } else {
      var i := |sids| - 1;
      InitIsDisjoint(owners, sids);
      NobodyLeftToTell(owners, sent, sids[..i], status);
      assert sids[..i + 1] == sids;
      RevokedNext(owners, sids, i, status);
    }
  }

  lemma InitIsDisjoint(owners: map<nat, Client>, sids: seq<nat>)
    requires sids != [] && SidSet(sids) !! owners.Keys
    ensures SidSet(sids[..|sids| - 1]) !! owners.Keys && sids[|sids| - 1] !in owners
  {
    assert sids[|sids| - 1] in SidSet(sids);
    assert SidSet(sids[..|sids| - 1]) <= SidSet(sids);
  }

  lemma RevokedNext(owners: map<nat, Client>, sids: seq<nat>, i: nat, status: Status)
    requires i < |sids|
    ensures Revocations(owners, Notices(sids[..i + 1], status)) == Revocations(owners, Notices(sids[..i], status)) +
              if sids[i] in owners - SidSet(sids[..i]) then [Sent(owners[sids[i]], Revoked(sids[i], status))] else []
  {
    var notices := Notices(sids, status);
    assert Notices(sids[..i + 1], status) == notices[..i + 1] && Notices(sids[..i], status) == notices[..i];
    assert notices[i] == Notice(sids[i], status);
    RevocationsSnoc(owners, notices, i);
  }

  lemma NothingNoticed(owners: map<nat, Client>, sent: seq<Sent>, status: Status)
    ensures sent + Revocations(owners, Notices([], status)) == sent
  {
  }

  lemma NothingRevoked(owners: map<nat, Client>, sent: seq<Sent>)
    ensures sent + Revocations(owners, []) == sent
  {
  }

  /** What is told of sessions that go for a new one. */
  function Farewells(owners: map<nat, Client>, expired: seq<nat>, evicted: seq<nat>): seq<Sent> {
    Revocations(owners, Notices(expired, Expired) + Notices(evicted, Reclaimed))
  }

  lemma RemoveBoth(owners: map<nat, Client>, a: set<nat>, b: set<nat>)
    ensures owners - (a + b) == owners - a - b
  {
  }

  class Daemon {
    const sessions: SessionManager
    const router: Vt100Router
    const realHid: bool
    var owners: map<nat, Client>
    var pendingSessions: seq<(Client, string)>
    var focusedSid: Option<nat>
    var hidOpen: bool
    var txQueue: seq<Packet>
    var sent: seq<Sent>
    /** Packets sent to all clients. */
    var broadcasts: seq<Packet>
    ghost var log: seq<Queued>
    /** The clients whose session requests were forwarded, and those that were answered, in order. */
    ghost var asked: seq<Client>
    ghost var answered: seq<Client>
    /** The terminal bytes queued for the focused session since it was focused. */
    ghost var boardShown: seq<byte>
    /** The focus sent the session's buffer. */
    ghost var boardReplayed: bool

    /**
     * A focused session is the router's active one, so its output is never held
     * back; and what the board was sent for it since the focus is in step.
     */
    ghost predicate FocusInStep()
      reads this, router
    {
      && (focusedSid.Some? ==> router.active == focusedSid)
      && BoardInStep(hidOpen, focusedSid, router.buffers, router.own, boardShown, boardReplayed)
    }

    /** The board holds the focused session's last state exactly when the focus replayed it, or that much came since. */
    lemma BoardShowsSnapshotIff()
      requires Valid() && hidOpen && focusedSid.Some?
      ensures focusedSid.value in router.buffers
      ensures var snapshot := Flatten(router.buffers[focusedSid.value]);
              EndsWith(boardShown, snapshot) <==> boardReplayed || |snapshot| <= |boardShown|
    {
      router.ActiveIsBuffered();
      var sid := focusedSid.value;
      BufferIsOwned(router.order, router.buffers, router.sizes, router.own, router.bufferBytes, sid);
      if !boardReplayed {
        FittingIsSuffix(router.own[sid], router.bufferBytes);
        SuffixesCompare(Flatten(router.own[sid]), boardShown, Flatten(router.buffers[sid]));
      }
    }

    ghost predicate ValidOutput()
      reads this, router
    {
      && router.Valid() && router.hasSink
      && OnlyFocusedStreams(log)
      && (hidOpen ==> realHid)
      && |txQueue| <= HID_TX_QUEUE_LIMIT
    }

    ghost predicate Valid()
      reads this, sessions, router
    {
      && sessions.Valid() && ValidOutput() && FocusInStep() && WaitersInOrder()
      && router.buffers.Keys == Live(sessions.sessions)
      && owners.Keys == Live(sessions.sessions)
    }

    /** While there is a device, the requests not yet answered wait in the order they were made. */
    ghost predicate WaitersInOrder()
      reads this
    {
      if hidOpen then asked == answered + Waiters(pendingSessions) else pendingSessions == []
    }

    /** The n-th answer went to the client of the n-th request. */
    lemma AnswersFollowRequests()
      requires Valid() && hidOpen
      ensures answered <= asked && |asked| == |answered| + |pendingSessions|
      ensures pendingSessions != [] ==> pendingSessions[0].0 == asked[|answered|]
    {
      hide OnlyFocusedStreams, FocusInStep, SessionManager.Valid, Vt100Router.Valid;
    }

    /**
     * Nobody joins or leaves the waiting clients, unless the device is given up and
     * with it all of them; nothing is sent to everyone, and nothing is queued for a
     * device that is gone.
     */
    twostate predicate WaitersKept()
      reads this
    {
      && asked == old(asked) && answered == old(answered) && broadcasts == old(broadcasts)
      && (hidOpen ==> old(hidOpen)) && (!old(hidOpen) ==> txQueue == old(txQueue))
      && pendingSessions == if !hidOpen && old(hidOpen) then [] else old(pendingSessions)
    }

    constructor (maxSessions: nat, ttlSeconds: int, realHid: bool)
      requires 1 <= maxSessions <= 0xFFFF
      ensures Valid() && fresh(sessions) && fresh(router)
      ensures this.realHid == realHid && hidOpen == realHid && router.bufferBytes == 65536
      ensures sessions.sessions == [] && sessions.max == maxSessions && router.active == None && focusedSid == None
      ensures pendingSessions == [] && txQueue == [] && router.buffers == map[]
      ensures asked == [] && answered == []
    {
      sessions := new SessionManager(maxSessions, ttlSeconds);
      router := new Vt100Router(65536, true);
      this.realHid := realHid;
      owners, pendingSessions, focusedSid := map[], [], None;
      hidOpen, txQueue, sent, broadcasts, log := realHid, [], [], [], [];
      boardShown, boardReplayed, asked, answered := [], false, [], [];
    }

    twostate predicate Untouched()
      reads this, router
    {
      && hidOpen == old(hidOpen) && focusedSid == old(focusedSid) && txQueue == old(txQueue)
      && router.active == old(router.active) && router.buffers == old(router.buffers)
    }

    // ---- the board queue

    method MarkHidrawUnavailable()
      requires ValidOutput()
      modifies `hidOpen, `pendingSessions, `sent
      ensures ValidOutput()
      ensures !hidOpen && pendingSessions == []
      ensures sent == old(sent) + Refusals(old(pendingSessions))
    {
      AllRefused(pendingSessions, sent);
      hidOpen := false;
      var pending := pendingSessions;
      pendingSessions := [];
      for i := 0 to |pending|
        invariant !hidOpen && pendingSessions == [] && ValidOutput()
        invariant sent == old(sent) + Refusals(pending[..i])
      {
        assert pending[..i + 1] == pending[..i] + [pending[i]];
        RefusalsSnoc(pending[..i], pending[i]);
        sent := sent + [Sent(pending[i].0, Revoked(SESSION_BROADCAST, Invalid))];
      }
    }

    /** A full queue makes the device unavailable. */
    method ForwardPacketToBoard(packet: Packet) returns (ok: bool)
      requires ValidOutput()
      requires packet.kind.Vt100Stream? ==> focusedSid == Some(packet.sid)
      modifies `hidOpen, `pendingSessions, `sent, `txQueue, `log
      ensures ValidOutput()
      ensures ok == (old(hidOpen) && |old(txQueue)| < 4096)
      ensures hidOpen == ok
      ensures txQueue == old(txQueue) + if ok then [packet] else []
      ensures sent == old(sent) + if hidOpen == old(hidOpen) then [] else Refusals(old(pendingSessions))
      ensures WaitersKept()
    {
      if !hidOpen {
        return false;
      }
      if |txQueue| >= HID_TX_QUEUE_LIMIT {
        MarkHidrawUnavailable();
        return false;
      }
      txQueue := txQueue + [packet];
      log := log + [Queued(packet, focusedSid)];
      ok := true;
    }

    /** The screen sink: only the focused session's output goes to the board. */
    method OnHidScreenWrite(sid: nat, data: seq<byte>)
      requires ValidOutput()
      modifies `hidOpen, `pendingSessions, `sent, `txQueue, `log, `boardShown
      ensures ValidOutput()
      ensures hidOpen == old(hidOpen) ==> sent == old(sent)
      ensures WaitersKept()
      ensures hidOpen ==> txQueue == old(txQueue) + if focusedSid == Some(sid) then StreamPackets(sid, data) else []
      ensures hidOpen ==> boardShown == old(boardShown) + if focusedSid == Some(sid) then data else []
      ensures focusedSid != Some(sid) ==> hidOpen == old(hidOpen)
    {
      if focusedSid.None? || focusedSid.value != sid || !hidOpen {
        return;
      }
      hide OnlyFocusedStreams, StreamPackets, Vt100Router.Valid;
      var packets := StreamPackets(sid, data);
      QueueNothing(txQueue, packets);
      for i := 0 to |packets|
        invariant ValidOutput() && hidOpen
        invariant txQueue == old(txQueue) + packets[..i]
        invariant sent == old(sent) && pendingSessions == old(pendingSessions) && boardShown == old(boardShown)
      {
        var ok := ForwardPacketToBoard(packets[i]);
        if !ok {
          return;
        }
        QueueNext(old(txQueue), packets, i);
      }
      QueueAll(old(txQueue), packets, |packets|);
      boardShown := boardShown + data;
    }

    /** The sink call a router method made, if it made one. */
    method HandleSinkCall(before: nat)
      requires ValidOutput() && before <= |router.calls| <= before + 1
      modifies `hidOpen, `pendingSessions, `sent, `txQueue, `log, `boardShown
      ensures ValidOutput()
      ensures hidOpen == old(hidOpen) ==> sent == old(sent)
      ensures WaitersKept()
      ensures hidOpen && before == |router.calls| ==> txQueue == old(txQueue) && boardShown == old(boardShown)
      ensures hidOpen && before < |router.calls| ==>
                var call := router.calls[before];
                boardShown == old(boardShown) + if focusedSid == Some(call.sid) then call.data else []
      ensures hidOpen && before < |router.calls| ==>
                var call := router.calls[before];
                txQueue ==
                  old(txQueue) + if focusedSid == Some(call.sid) then StreamPackets(call.sid, call.data) else []
      ensures before == |router.calls| || focusedSid != Some(router.calls[before].sid) ==> hidOpen == old(hidOpen)
    {
      if realHid && before < |router.calls| {
        OnHidScreenWrite(router.calls[before].sid, router.calls[before].data);
      }
    }

    // ---- the invalidation callback

    /** The buffer goes; only when it was in focus and the last one does the board hear of it. */
    method UnregisterWithSink(sid: nat)
      requires ValidOutput() && FocusInStep()
      modifies router, `hidOpen, `pendingSessions, `sent, `txQueue, `log, `boardShown
      ensures ValidOutput() && WaitersKept() && (hidOpen == old(hidOpen) ==> sent == old(sent))
      ensures router.buffers == old(router.buffers) - {sid}
      ensures focusedSid.Some? && focusedSid != Some(sid) ==> router.active == focusedSid
      ensures BoardInStep(hidOpen, if focusedSid == Some(sid) then None else focusedSid, router.buffers, router.own,
                          boardShown, boardReplayed)
      ensures hidOpen ==>
                txQueue == old(txQueue) + if focusedSid == Some(sid) && router.buffers == map[]
                                          then StreamPackets(sid, SCREEN_CLEAR) else []
    {
      hide OnlyFocusedStreams, ShownOk, BuffersOk, InStep, StreamPackets, Vt100Router.Valid, Waiters, BoardInStep;
      RemovedInStep(hidOpen, focusedSid, router.buffers, router.own, boardShown, boardReplayed, sid);
      var before := |router.calls|;
      router.Unregister(sid);
      router.NoBuffersNoOrder();
      assert boardShown + [] == boardShown;
      HandleSinkCall(before);
      ClosedInStep(if focusedSid == Some(sid) then None else focusedSid, router.buffers, router.own,
                   boardShown, boardReplayed);
    }

    /** A removed session loses its buffer, its owner and the focus; its owner is told. */
    method OnSessionInvalidate(sid: nat, status: Status)
      requires ValidOutput() && FocusInStep()
      modifies this, router
      ensures ValidOutput() && FocusInStep()
      ensures router.buffers.Keys == old(router.buffers.Keys) - {sid}
      ensures owners == old(owners) - {sid}
      ensures focusedSid == if old(focusedSid) == Some(sid) then None else old(focusedSid)
      ensures sid in old(owners) ==> sent != [] && sent[|sent| - 1] == Sent(old(owners)[sid], Revoked(sid, status))
      ensures hidOpen == old(hidOpen) ==>
                sent == old(sent) + if sid in old(owners) then [Sent(old(owners)[sid], Revoked(sid, status))] else []
      ensures hidOpen ==>
                txQueue == old(txQueue) + if old(focusedSid) == Some(sid) && router.buffers == map[]
                                          then StreamPackets(sid, SCREEN_CLEAR) else []
      ensures WaitersKept()
    {
      hide OnlyFocusedStreams, StreamPackets, Vt100Router.Valid, Waiters, BoardInStep;
      UnregisterWithSink(sid);
      var owner := if sid in owners then Some(owners[sid]) else None;
      owners := owners - {sid};
      if owner.Some? {
        sent := sent + [Sent(owner.value, Revoked(sid, status))];
      }
      if focusedSid == Some(sid) {
        focusedSid := None;
      }
    }

    /** The callback runs for every session removed, in order. */
    method HandleNotices(before: nat)
      requires ValidOutput() && FocusInStep() && before <= |sessions.notices|
      modifies this, router
      ensures ValidOutput() && FocusInStep()
      ensures var gone := SidSet(NoticedSids(sessions.notices[before..]));
              && router.buffers.Keys == old(router.buffers.Keys) - gone
              && owners == old(owners) - gone
              && focusedSid == if old(focusedSid).Some? && old(focusedSid).value in gone then None else old(focusedSid)
      ensures WaitersKept()
      ensures hidOpen == old(hidOpen) ==> sent == old(sent) + Revocations(old(owners), sessions.notices[before..])
      ensures hidOpen && (focusedSid == old(focusedSid) || router.buffers != map[]) ==> txQueue == old(txQueue)
      ensures before == |sessions.notices| ==> Untouched()
    {
      hide OnlyFocusedStreams, ShownOk, BuffersOk, InStep, ValidTable, Live, SidSet, NoticedSids, Notices, Dropped,
           Stale, StreamPackets, SessionManager.Valid, Vt100Router.Valid, Waiters, BoardInStep, Revocations,
           Daemon.ValidOutput, Daemon.FocusInStep;
      var notices := sessions.notices[before..];
      SidSetOne(0, Invalid);
      NothingRevoked(owners, sent);
      if notices == [] {
        return;
      }
      for i := 0 to |notices|
        invariant ValidOutput() && FocusInStep()
        invariant var gone := SidSet(NoticedSids(notices[..i]));
                  && router.buffers.Keys == old(router.buffers.Keys) - gone
                  && owners == old(owners) - gone
                  && focusedSid ==
                       if old(focusedSid).Some? && old(focusedSid).value in gone then None else old(focusedSid)
        invariant WaitersKept()
        invariant hidOpen == old(hidOpen) ==> sent == old(sent) + Revocations(old(owners), notices[..i])
        invariant hidOpen && (focusedSid == old(focusedSid) || router.buffers != map[]) ==> txQueue == old(txQueue)
      {
        RevocationsSnoc(old(owners), notices, i);
        RemoveMore(old(owners), old(router.buffers.Keys), SidSet(NoticedSids(notices[..i])), notices[i].sid);
        OnSessionInvalidate(notices[i].sid, notices[i].status);
        NoticedSnoc(notices, i);
      }
      assert notices[..|notices|] == notices;
    }

    // ---- clients

    /** The tables list the live sessions, but for the one just granted. */
    ghost predicate AwaitsOwner(sid: nat)
      reads this, sessions, router
    {
      && sessions.Valid() && ValidOutput() && FocusInStep() && WaitersInOrder()
      && sid in Live(sessions.sessions)
      && router.buffers.Keys == owners.Keys
      && owners.Keys + {sid} == Live(sessions.sessions)
    }

    /** A request to the session table, with the callbacks it makes. */
    method RequestWithCallbacks(hint: string, reapClock: int, clock: int)
      returns (sid: nat, status: Status, evicted: seq<nat>)
      requires Valid()
      modifies this, sessions, router
      ensures AwaitsOwner(sid) && WaitersKept()
      ensures status == Created && SidSet(evicted) !! owners.Keys
      ensures sid != SESSION_BROADCAST
      ensures var table, cutoff := old(sessions.sessions), reapClock - sessions.ttlMs;
              && MadeRoom(table, cutoff, sessions.max, evicted)
              && 1 <= old(sessions.nextSid) <= sessions.max
              && IsFirstFree(sessions.max, Staying(table, cutoff, evicted), old(sessions.nextSid), sid)
              && sessions.sessions == Staying(table, cutoff, evicted) + [Session(sid, hint, "", clock, clock)]
              && owners == old(owners) - SidSet(Stale(table, cutoff)) - SidSet(evicted)
              && (hidOpen == old(hidOpen) ==> sent == old(sent) + Farewells(old(owners), Stale(table, cutoff), evicted))
    {
      hide OnlyFocusedStreams, ShownOk, BuffersOk, InStep, ValidTable, Live, SidSet, NoticedSids, Sids, IsLeastRecent,
           Notices, Dropped, Stale, StreamPackets, SessionManager.Valid, Vt100Router.Valid, MadeRoom, IsFirstFree,
           Staying, Revocations, Waiters, BoardInStep;
      RangeOfNext(sessions);
      var before := |sessions.notices|;
      ghost var table, said, cutoff := sessions.sessions, sessions.notices, reapClock - sessions.ttlMs;
      sid, status, evicted := sessions.RequestSession(hint, "", reapClock, clock);
      FirstFreeIsFree(sessions.max, Staying(table, cutoff, evicted), old(sessions.nextSid), sid);
      RemovedAreReported(table, cutoff, evicted, Session(sid, hint, "", clock, clock), said);
      RemoveBoth(owners, SidSet(Stale(table, cutoff)), SidSet(evicted));
      HandleNotices(before);
    }

    /** The board's id goes into the session table, with the callbacks that makes. */
    method AdoptWithCallbacks(sid: nat, hint: string, reapClock: int, clock: int)
      returns (r: nat, status: Status, evicted: seq<nat>)
      requires Valid()
      modifies this, sessions, router
      ensures WaitersKept()
      ensures 1 <= sid <= sessions.max ==>
                var table, cutoff := old(sessions.sessions), reapClock - sessions.ttlMs;
                && MadeRoomFor(table, cutoff, sessions.max, sid, evicted)
                && sessions.sessions == Staying(table, cutoff, evicted) + [Session(sid, hint, "", clock, clock)]
                && owners == old(owners) - SidSet(Stale(table, cutoff)) - SidSet(evicted)
                && (hidOpen == old(hidOpen) ==>
                      sent == old(sent) + Farewells(old(owners), Stale(table, cutoff), evicted))
      ensures 1 <= sid <= sessions.max ==> AwaitsOwner(sid) && r == sid && status == Created && sid !in owners
      ensures old(sessions.sessions) == [] ==> Untouched() && owners == map[]
      ensures !(1 <= sid <= sessions.max) ==>
                && Valid() && r == 0 && status == Invalid && hidOpen == old(hidOpen)
                && owners == old(owners) && sent == old(sent) && sessions.sessions == old(sessions.sessions)
    {
      hide OnlyFocusedStreams, ShownOk, BuffersOk, InStep, ValidTable, Live, SidSet, NoticedSids, Sids, IsLeastRecent,
           Notices, Dropped, Stale, StreamPackets, SessionManager.Valid, Vt100Router.Valid, MadeRoomFor, Staying,
           Revocations, Waiters, BoardInStep;
      var before := |sessions.notices|;
      ghost var table, said, cutoff := sessions.sessions, sessions.notices, reapClock - sessions.ttlMs;
      NothingToEvict(cutoff, said);
      NoSids([]);
      NoOwners(owners);
      r, status, evicted := sessions.AdoptSession(sid, hint, "", reapClock, clock);
      if 1 <= sid <= sessions.max {
        NobodyToEvict(cutoff, sessions.max, sid, evicted);
        RemovedAreReported(table, cutoff, evicted, Session(sid, hint, "", clock, clock), said);
        RemoveBoth(owners, SidSet(Stale(table, cutoff)), SidSet(evicted));
        HandleNotices(before);
      } else {
        assert sessions.notices == said;
      }
    }

    /** The new session's owner and buffer are entered. */
    method GiveTo(client: Client, sid: nat)
      requires AwaitsOwner(sid)
      modifies `owners, router
      ensures Valid()
      ensures owners == old(owners)[sid := client]
    {
      hide OnlyFocusedStreams, ShownOk, BuffersOk, InStep, ValidTable, Live, SessionManager.Valid, Vt100Router.Valid,
           Waiters, BoardInStep;
      owners := owners[sid := client];
      router.ActiveIsBuffered();
      router.BuffersAreOwned();
      RegisteredInStep(hidOpen, focusedSid, router.buffers, router.own, boardShown, boardReplayed, sid);
      router.Register(sid);
    }

    /**
     * A grant of the daemon's own: the first free id, after whatever had to go; its
     * client is told last, and owns it.
     */
    method HandleRequestSession(client: Client, hint: string, reapClock: int, clock: int)
      returns (sid: nat, evicted: seq<nat>)
      requires Valid()
      modifies this, sessions, router
      ensures Valid() && WaitersKept()
      ensures sid in Live(sessions.sessions) && owners[sid] == client
      ensures sent != [] && sent[|sent| - 1] == Sent(client, Granted(sid, Created))
      ensures var table, cutoff := old(sessions.sessions), reapClock - sessions.ttlMs;
              && MadeRoom(table, cutoff, sessions.max, evicted)
              && 1 <= old(sessions.nextSid) <= sessions.max
              && IsFirstFree(sessions.max, Staying(table, cutoff, evicted), old(sessions.nextSid), sid)
              && sessions.sessions == Staying(table, cutoff, evicted) + [Session(sid, hint, "", clock, clock)]
              && owners == (old(owners) - SidSet(Stale(table, cutoff)) - SidSet(evicted))[sid := client]
              && (hidOpen == old(hidOpen) ==>
                    sent == old(sent) + Farewells(old(owners), Stale(table, cutoff), evicted)
                            + [Sent(client, Granted(sid, Created))])
    {
      hide OnlyFocusedStreams, ShownOk, BuffersOk, InStep, ValidTable, Live, SidSet, NoticedSids, Notices, Dropped,
           Stale, StreamPackets, SessionManager.Valid, Vt100Router.Valid, Sids, MadeRoom, IsFirstFree, Farewells,
           Waiters, BoardInStep, Staying;
      var status;
      sid, status, evicted := RequestWithCallbacks(hint, reapClock, clock);
      NothingLeftToRemove(owners, SidSet(evicted));
      owners := owners - SidSet(evicted);
      GiveTo(client, sid);
      sent := sent + [Sent(client, Granted(sid, status))];
    }

    /** An unknown session is refused; otherwise the sender becomes its owner. */
    method ValidateSession(sid: nat, client: Client) returns (known: bool)
      requires Valid()
      modifies `owners, `sent
      ensures Valid()
      ensures known == (sid in Live(sessions.sessions))
      ensures owners == if known then old(owners)[sid := client] else old(owners)
      ensures sent == old(sent) + if known then [] else [Sent(client, Revoked(sid, Invalid))]
    {
      hide OnlyFocusedStreams, ShownOk, BoardInStep, Sids, Live, SessionManager.Valid, Vt100Router.Valid;
      LiveAre(sessions.sessions, sid);
      if sid !in Sids(sessions.sessions) {
        sent := sent + [Sent(client, Revoked(sid, Invalid))];
        return false;
      }
      if sid !in owners || owners[sid] != client {
        owners := owners[sid := client];
      }
      known := true;
    }

    /** Output of the focused session reaches the board queue, that of others only the buffer. */
    method HandleVt100(sid: nat, client: Client, data: seq<byte>, clock: int)
      requires Valid()
      modifies this, sessions, router
      ensures Valid() && WaitersKept()
      ensures Live(sessions.sessions) == old(Live(sessions.sessions))
      ensures sessions.sessions == if sid in old(Live(sessions.sessions))
                                   then Touched(old(sessions.sessions), sid, clock) else old(sessions.sessions)
      ensures hidOpen == old(hidOpen) ==> sent == old(sent) + if sid in old(Live(sessions.sessions)) then []
                                              else [Sent(client, Revoked(sid, Invalid))]
      ensures hidOpen && (data == [] || focusedSid != Some(sid)) ==> txQueue == old(txQueue)
      ensures hidOpen && data != [] && focusedSid == Some(sid) ==> txQueue == old(txQueue) + StreamPackets(sid, data)
      ensures focusedSid == old(focusedSid) && router.active == old(router.active)
      ensures focusedSid != Some(sid) ==> hidOpen == old(hidOpen)
      ensures owners == if sid in old(Live(sessions.sessions)) then old(owners)[sid := client] else old(owners)
      ensures sid in old(Live(sessions.sessions)) && data != [] ==>
                sid in old(router.buffers) && sid in router.buffers
                && router.buffers[sid] == Fitting(old(router.buffers)[sid] + [data], router.bufferBytes)
      ensures forall other :: other in router.buffers && other != sid ==>
                other in old(router.buffers) && router.buffers[other] == old(router.buffers)[other]
    {
      hide OnlyFocusedStreams, ShownOk, BuffersOk, InStep, ValidTable, Live, StreamPackets, SessionManager.Valid,
           Vt100Router.Valid, Waiters, BoardInStep, Touched, Fitting;
      router.ActiveIsBuffered();
      LiveTouched(sessions.sessions, sid, clock);
      var known := ValidateSession(sid, client);
      if !known {
        return;
      }
      var touched := sessions.Touch(sid, clock);
      FocusedGrows(router, hidOpen, focusedSid, boardShown, boardReplayed, sid, data);
      assert boardShown + [] == boardShown;
      var before := |router.calls|;
      router.Append(sid, data);
      HandleSinkCall(before);
      ClosedInStep(focusedSid, router.buffers, router.own, boardShown, boardReplayed);
    }

    method SessionsOwnedBy(client: Client, except: nat) returns (sids: seq<nat>)
      ensures SidSet(sids) == Owned(owners, client, except)
    {
      sids := [];
      var todo := owners.Keys;
      while todo != {}
        invariant todo <= owners.Keys
        invariant SidSet(sids) == set sid | sid in owners && sid !in todo && owners[sid] == client && sid != except
        decreases todo
      {
        var sid :| sid in todo;
        todo := todo - {sid};
        if owners[sid] == client && sid != except {
          SidSetSnoc(sids, sid);
          sids := sids + [sid];
        }
      }
    }

    /** Sessions a client gives up go one by one. */
    method InvalidateAll(sids: seq<nat>, status: Status)
      requires sessions.Valid() && ValidOutput() && FocusInStep() && WaitersInOrder()
      requires router.buffers.Keys == Live(sessions.sessions)
      requires owners.Keys - SidSet(sids) == Live(sessions.sessions) - SidSet(sids)
      requires SidSet(sids) <= Live(sessions.sessions)
      modifies this, sessions, router
      ensures Valid() && WaitersKept()
      ensures Live(sessions.sessions) == old(Live(sessions.sessions)) - SidSet(sids)
      ensures forall s :: s in sessions.sessions <==> s in old(sessions.sessions) && s.sid !in SidSet(sids)
      ensures owners == old(owners) - SidSet(sids)
      ensures hidOpen == old(hidOpen) ==> sent == old(sent) + Revocations(old(owners), Notices(sids, status))
      ensures focusedSid == if old(focusedSid).Some? && old(focusedSid).value in SidSet(sids) then None
                            else old(focusedSid)
      ensures hidOpen && (focusedSid == old(focusedSid) || router.buffers != map[]) ==> txQueue == old(txQueue)
      ensures sids == [] ==> Untouched()
    {
      hide OnlyFocusedStreams, ShownOk, BuffersOk, InStep, ValidTable, Live, SidSet, NoticedSids, Notices, Dropped,
           Stale, StreamPackets, SessionManager.Valid, Vt100Router.Valid, Waiters, BoardInStep, Revocations,
           Daemon.ValidOutput, Daemon.FocusInStep;
      SidSetNothing();
      NothingNoticed(owners, sent, status);
      assert sids[..0] == [];
      for i := 0 to |sids|
        invariant sessions.Valid() && ValidOutput() && FocusInStep()
        invariant Live(sessions.sessions) == old(Live(sessions.sessions)) - SidSet(sids[..i])
        invariant router.buffers.Keys == Live(sessions.sessions)
        invariant owners == old(owners) - SidSet(sids[..i]) && WaitersKept()
        invariant forall s :: s in sessions.sessions <==> s in old(sessions.sessions) && s.sid !in SidSet(sids[..i])
        invariant hidOpen == old(hidOpen) ==> sent == old(sent) + Revocations(old(owners), Notices(sids[..i], status))
        invariant focusedSid == if old(focusedSid).Some? && old(focusedSid).value in SidSet(sids[..i]) then None
                                else old(focusedSid)
        invariant hidOpen && (focusedSid == old(focusedSid) || router.buffers != map[]) ==> txQueue == old(txQueue)
        invariant i == 0 ==> Untouched()
      {
        InSidSet(sids, i);
        RevokedNext(old(owners), sids, i, status);
        InvalidateOne(sids[i], status);
        SidSetSnoc(sids[..i], sids[i]);
        assert sids[..i + 1] == sids[..i] + [sids[i]];
      }
      assert sids[..|sids|] == sids;
    }

    method InvalidateOne(sid: nat, status: Status)
      requires sessions.Valid() && ValidOutput() && FocusInStep()
      requires router.buffers.Keys == Live(sessions.sessions)
      modifies this, sessions, router
      ensures sessions.Valid() && ValidOutput() && FocusInStep()
      ensures Live(sessions.sessions) == old(Live(sessions.sessions)) - {sid}
      ensures router.buffers.Keys == Live(sessions.sessions)
      ensures WaitersKept()
      ensures forall s :: s in sessions.sessions <==> s in old(sessions.sessions) && s.sid != sid
      ensures hidOpen == old(hidOpen) ==>
                sent == old(sent) + if sid in old(Live(sessions.sessions)) && sid in old(owners)
                                    then [Sent(old(owners)[sid], Revoked(sid, status))] else []
      ensures sid in old(Live(sessions.sessions)) ==> owners == old(owners) - {sid}
      ensures sid !in old(Live(sessions.sessions)) ==> owners == old(owners)
      ensures focusedSid == if old(focusedSid) == Some(sid) then None else old(focusedSid)
      ensures hidOpen && (focusedSid == old(focusedSid) || router.buffers != map[]) ==> txQueue == old(txQueue)
    {
      hide OnlyFocusedStreams, ShownOk, BuffersOk, InStep, ValidTable, Live, SidSet, NoticedSids, Notices, Dropped,
           Stale, StreamPackets, SessionManager.Valid, Vt100Router.Valid;
      var before := |sessions.notices|;
      router.ActiveIsBuffered();
      LiveDropped(sessions.sessions, [sid]);
      SidSetOne(sid, status);
      ghost var said := sessions.notices;
      DroppedMembers(sessions.sessions, [sid]);
      RevokedOne(owners, sid, status, sent);
      var known := sessions.Invalidate(sid, status);
      LiveAre(old(sessions.sessions), sid);
      NewNotices(said, if known then [Notice(sid, status)] else []);
      HandleNotices(before);
    }

    /**
     * A session request waits for the board's answer under its hint, the text of
     * its payload, unless it cannot be forwarded.
     */
    method ForwardSessionRequestToBoard(client: Client, request: Packet, hint: string)
      requires Valid() && request.kind.RequestSession?
      modifies `hidOpen, `pendingSessions, `sent, `txQueue, `log, `asked
      ensures Valid()
      ensures pendingSessions == if hidOpen then old(pendingSessions) + [(client, hint)] else []
      ensures asked == old(asked) + if hidOpen then [client] else []
      ensures hidOpen ==> txQueue == old(txQueue) + [request] && sent == old(sent)
      ensures !hidOpen ==> txQueue == old(txQueue)
      ensures hidOpen == (old(hidOpen) && |old(txQueue)| < 4096)
      ensures !hidOpen ==>
                sent == old(sent) + (if old(hidOpen) then Refusals(old(pendingSessions) + [(client, hint)]) else [])
                        + [Sent(client, Revoked(SESSION_BROADCAST, Invalid))]
    {
      hide OnlyFocusedStreams, ShownOk, BuffersOk, InStep, ValidTable, Live, SidSet, NoticedSids, Notices, Dropped,
           Stale, StreamPackets, SessionManager.Valid, Vt100Router.Valid;
      WaitersSnoc(pendingSessions, client, hint);
      pendingSessions := pendingSessions + [(client, hint)];
      var ok := ForwardPacketToBoard(request);
      if ok {
        asked := asked + [client];
      } else {
        DropPendingSession(client, hint);
        sent := sent + [Sent(client, Revoked(SESSION_BROADCAST, Invalid))];
      }
    }

    /** Removes the first entry of this request. */
    method DropPendingSession(client: Client, hint: string)
      modifies `pendingSessions
      ensures pendingSessions == WithoutFirst(old(pendingSessions), (client, hint))
    {
      hide WithoutFirst;
      assert pendingSessions[..0] + WithoutFirst(pendingSessions, (client, hint))
          == WithoutFirst(pendingSessions, (client, hint));
      assert pendingSessions[0..] == pendingSessions;
      for i := 0 to |pendingSessions|
        invariant pendingSessions == old(pendingSessions)
        invariant WithoutFirst(pendingSessions, (client, hint))
               == pendingSessions[..i] + WithoutFirst(pendingSessions[i..], (client, hint))
      {
        WithoutFirstNext(pendingSessions, i, (client, hint));
        if pendingSessions[i] == (client, hint) {
          pendingSessions := pendingSessions[..i] + pendingSessions[i + 1..];
          return;
        }
      }
      WithoutFirstOfNone(pendingSessions, |pendingSessions|, (client, hint));
    }

    /** A status update counts as activity of its session. */
    method HandleStatusUpdate(sid: nat, client: Client, clock: int) returns (known: bool)
      requires Valid()
      modifies `owners, `sent, sessions
      ensures Valid() && WaitersKept()
      ensures known == (sid in old(Live(sessions.sessions)))
      ensures Live(sessions.sessions) == old(Live(sessions.sessions))
      ensures sessions.sessions == if known then Touched(old(sessions.sessions), sid, clock) else old(sessions.sessions)
      ensures owners == if known then old(owners)[sid := client] else old(owners)
      ensures sent == old(sent) + if known then [] else [Sent(client, Revoked(sid, Invalid))]
    {
      hide OnlyFocusedStreams, ShownOk, BuffersOk, InStep, ValidTable, Live, SidSet, NoticedSids, Notices, Dropped,
           Stale, StreamPackets, SessionManager.Valid, Vt100Router.Valid;
      LiveTouched(sessions.sessions, sid, clock);
      known := ValidateSession(sid, client);
      if known {
        var touched := sessions.Touch(sid, clock);
      }
    }

    /** A status update of a live session goes on to the board. */
    method ForwardStatusUpdate(client: Client, packet: Packet, clock: int)
      requires Valid() && packet.kind.StatusUpdate?
      modifies `owners, `hidOpen, `pendingSessions, `sent, `txQueue, `log, sessions
      ensures Valid() && WaitersKept()
      ensures Live(sessions.sessions) == old(Live(sessions.sessions))
      ensures sessions.sessions == if packet.sid in Live(sessions.sessions)
                                   then Touched(old(sessions.sessions), packet.sid, clock) else old(sessions.sessions)
      ensures hidOpen == old(hidOpen) ==> sent == old(sent) + if packet.sid in Live(sessions.sessions) then []
                                              else [Sent(client, Revoked(packet.sid, Invalid))]
      ensures hidOpen ==> txQueue == old(txQueue) + if packet.sid in Live(sessions.sessions) then [packet] else []
      ensures owners == if packet.sid in Live(sessions.sessions) then old(owners)[packet.sid := client] else old(owners)
    {
      hide OnlyFocusedStreams, ShownOk, BuffersOk, InStep, ValidTable, Live, SidSet, NoticedSids, Notices, Dropped,
           Stale, StreamPackets, SessionManager.Valid, Vt100Router.Valid;
      var known := HandleStatusUpdate(packet.sid, client, clock);
      if known {
        var ok := ForwardPacketToBoard(packet);
      }
    }

    method ForwardValidated(client: Client, packet: Packet)
      requires Valid() && !packet.kind.Vt100Stream?
      modifies `owners, `hidOpen, `pendingSessions, `sent, `txQueue, `log
      ensures Valid() && WaitersKept()
      ensures hidOpen == old(hidOpen) ==>
                sent == old(sent) + if packet.sid == SESSION_BROADCAST || packet.sid in Live(sessions.sessions) then []
                                    else [Sent(client, Revoked(packet.sid, Invalid))]
      ensures hidOpen ==>
                txQueue == old(txQueue) + if packet.sid == SESSION_BROADCAST || packet.sid in Live(sessions.sessions)
                                          then [packet] else []
      ensures owners == if packet.sid != SESSION_BROADCAST && packet.sid in Live(sessions.sessions)
                        then old(owners)[packet.sid := client] else old(owners)
    {
      hide OnlyFocusedStreams, ShownOk, BuffersOk, InStep, ValidTable, Live, SidSet, NoticedSids, Notices, Dropped,
           Stale, StreamPackets, SessionManager.Valid, Vt100Router.Valid;
      if packet.sid != SESSION_BROADCAST {
        var known := ValidateSession(packet.sid, client);
        if !known {
          return;
        }
      }
      var ok := ForwardPacketToBoard(packet);
    }

    /**
     * A packet of a plugin while there is a device: requests and terminal output
     * take their own way, status updates and all other packets of live sessions
     * go straight to the board, and window packets nowhere.
     */
    method HandlePluginPacketReal(client: Client, packet: Packet, hint: string, clock: int)
      requires Valid()
      modifies this, sessions, router
      ensures Valid()
      ensures Live(sessions.sessions) == old(Live(sessions.sessions)) && focusedSid == old(focusedSid)
      ensures packet.kind.WindowActivate? || packet.kind.WindowSwitch? ==>
                && txQueue == old(txQueue) && sent == old(sent) && owners == old(owners)
                && sessions.sessions == old(sessions.sessions) && Untouched()
      ensures !packet.kind.RequestSession? ==> WaitersKept()
      ensures packet.kind.Vt100Stream? || packet.kind.StatusUpdate? ==>
                sessions.sessions == if packet.sid in old(Live(sessions.sessions))
                                     then Touched(old(sessions.sessions), packet.sid, clock)
                                     else old(sessions.sessions)
      ensures !packet.kind.Vt100Stream? && !packet.kind.StatusUpdate? ==> sessions.sessions == old(sessions.sessions)
      ensures !packet.kind.RequestSession? && !packet.kind.WindowActivate? && !packet.kind.WindowSwitch?
              && hidOpen == old(hidOpen) ==>
                sent == old(sent) + if packet.sid in old(Live(sessions.sessions))
                                       || (packet.sid == SESSION_BROADCAST && !packet.kind.Vt100Stream?
                                           && !packet.kind.StatusUpdate?)
                                    then [] else [Sent(client, Revoked(packet.sid, Invalid))]
      ensures packet.kind.RequestSession? && hidOpen ==>
                && txQueue == old(txQueue) + [packet] && pendingSessions == old(pendingSessions) + [(client, hint)]
                && asked == old(asked) + [client] && answered == old(answered) && sent == old(sent)
      ensures packet.kind.RequestSession? && !hidOpen ==>
                sent == old(sent) + (if old(hidOpen) then Refusals(old(pendingSessions) + [(client, hint)]) else [])
                        + [Sent(client, Revoked(SESSION_BROADCAST, Invalid))]
      ensures packet.kind.Vt100Stream? && hidOpen ==>
                txQueue == old(txQueue) + if packet.payload != [] && focusedSid == Some(packet.sid)
                                          then StreamPackets(packet.sid, packet.payload) else []
      ensures packet.kind.StatusUpdate? && hidOpen ==>
                txQueue == old(txQueue) + if packet.sid in Live(sessions.sessions) then [packet] else []
      ensures (packet.kind.SessionHeartbeat? || packet.kind.OtherKind?) && hidOpen ==>
                txQueue == old(txQueue) + if packet.sid == SESSION_BROADCAST || packet.sid in Live(sessions.sessions)
                                          then [packet] else []
      ensures !packet.kind.RequestSession? && packet.sid in Live(sessions.sessions)
              && !packet.kind.WindowActivate? && !packet.kind.WindowSwitch? && packet.sid != SESSION_BROADCAST ==>
                owners == old(owners)[packet.sid := client]
    {
      hide OnlyFocusedStreams, ShownOk, BuffersOk, InStep, ValidTable, Live, SidSet, NoticedSids, Notices, Dropped,
           Stale, StreamPackets, SessionManager.Valid, Vt100Router.Valid;
      match packet.kind
      case RequestSession =>
        ForwardSessionRequestToBoard(client, packet, hint);
      case Vt100Stream =>
        HandleVt100(packet.sid, client, packet.payload, clock);
      case StatusUpdate =>
        ForwardStatusUpdate(client, packet, clock);
      case WindowActivate =>
      case WindowSwitch =>
      case _ =>
        ForwardValidated(client, packet);
    }

    // ---- the board

    /**
     * The board's answer goes to the oldest request, which waits no longer; the
     * others wait on. After a grant its client owns the granted session and no
     * other; all other clients keep theirs, but for those that had to make room.
     */
    method HandleHidSessionResponse(packet: Packet, status: Status, reapClock: int, clock: int)
      returns (evicted: seq<nat>)
      requires Valid()
      modifies this, sessions, router
      ensures Valid() && asked == old(asked)
      ensures old(pendingSessions) == [] ==>
                && owners == old(owners) && sessions.sessions == old(sessions.sessions) && sent == old(sent)
                && WaitersKept() && Untouched()
      ensures old(pendingSessions) != [] ==>
                && pendingSessions == (if hidOpen then old(pendingSessions)[1..] else [])
                && answered == old(answered) + [old(pendingSessions)[0].0]
      ensures old(pendingSessions) != [] && old(hidOpen) ==>
                |old(answered)| < |old(asked)| && old(pendingSessions)[0].0 == old(asked)[|old(answered)|]
      ensures old(pendingSessions) != [] && (status == Ok || status == Created) && 1 <= packet.sid <= sessions.max ==>
                var client := old(pendingSessions)[0].0;
                var table, cutoff := old(sessions.sessions), reapClock - sessions.ttlMs;
                var left := old(owners) - SidSet(Stale(table, cutoff)) - SidSet(evicted);
                && MadeRoomFor(table, cutoff, sessions.max, packet.sid, evicted)
                && owners == (left - Owned(left, client, packet.sid))[packet.sid := client]
                && Session(packet.sid, old(pendingSessions)[0].1, "", clock, clock) in sessions.sessions
                && sent != [] && sent[|sent| - 1] == Sent(client, Forwarded(packet))
                && (hidOpen == old(hidOpen) ==>
                      sent == old(sent) + Farewells(old(owners), Stale(table, cutoff), evicted)
                              + [Sent(client, Forwarded(packet))])
      ensures old(pendingSessions) != []
              && !((status == Ok || status == Created) && 1 <= packet.sid <= sessions.max) ==>
                && owners == old(owners) && sessions.sessions == old(sessions.sessions) && hidOpen == old(hidOpen)
                && sent == old(sent) + [Sent(old(pendingSessions)[0].0,
                             Revoked(packet.sid, if status == Ok || status == Created then Invalid else status))]
      ensures (old(pendingSessions) != [] && (status == Ok || status == Created) && 1 <= packet.sid <= sessions.max
               && old(sessions.sessions) == []) ==>
                NewIn(packet.sid)
    {
      hide OnlyFocusedStreams, ShownOk, BuffersOk, InStep, ValidTable, Live, SidSet, NoticedSids, Sids, Notices,
           Dropped, Stale, StreamPackets, SessionManager.Valid, Vt100Router.Valid, MadeRoomFor, Owned, Farewells,
           Staying, Waiters, BoardInStep;
      evicted := [];
      if pendingSessions == [] {
        return;
      }
      WaitersNext(pendingSessions);
      var (client, hint) := pendingSessions[0];
      pendingSessions := pendingSessions[1..];
      answered := answered + [client];
      if (status == Ok || status == Created) && packet.sid != SESSION_BROADCAST {
        var sid, localStatus;
        sid, localStatus, evicted := AdoptWithCallbacks(packet.sid, hint, reapClock, clock);
        if (localStatus == Created || localStatus == Ok) && sid == packet.sid {
          BindGranted(client, sid, hint, clock);
        } else {
          sent := sent + [Sent(client, Revoked(packet.sid, localStatus))];
          return;
        }
      } else {
        var why := if status == Ok || status == Created then Invalid else status;
        sent := sent + [Sent(client, Revoked(packet.sid, why))];
        return;
      }
      sent := sent + [Sent(client, Forwarded(packet))];
    }

    /** A session was registered with the router, and nothing else happened to it. */
    twostate predicate NewIn(sid: nat)
      reads this, router
    {
      && hidOpen == old(hidOpen) && focusedSid == old(focusedSid)
      && router.active == (if old(router.active) == None then Some(sid) else old(router.active))
      && sid in router.buffers && (sid !in old(router.buffers) ==> router.buffers[sid] == [])
    }

    /** The granted session's owner and buffer are entered; those the client gives up lose their owner. */
    method TakeOver(client: Client, sid: nat, oldSids: seq<nat>)
      requires AwaitsOwner(sid) && sid !in owners && SidSet(oldSids) == Owned(owners, client, sid)
      modifies `owners, router
      ensures sessions.Valid() && ValidOutput() && FocusInStep() && WaitersInOrder()
      ensures router.buffers.Keys == Live(sessions.sessions)
      ensures owners == (old(owners) - SidSet(oldSids))[sid := client]
      ensures owners.Keys - SidSet(oldSids) == Live(sessions.sessions) - SidSet(oldSids)
      ensures SidSet(oldSids) <= Live(sessions.sessions) && sid !in SidSet(oldSids)
      ensures NewIn(sid)
    {
      hide OnlyFocusedStreams, ShownOk, BuffersOk, InStep, ValidTable, Live, SidSet, SessionManager.Valid,
           Vt100Router.Valid, Waiters, BoardInStep;
      OwnedAreGone(owners, oldSids, client, sid);
      owners := owners - SidSet(oldSids);
      owners := owners[sid := client];
      router.ActiveIsBuffered();
      router.BuffersAreOwned();
      RegisteredInStep(hidOpen, focusedSid, router.buffers, router.own, boardShown, boardReplayed, sid);
      router.Register(sid);
    }

    /** The client takes over the granted session and gives up those it owned before. */
    method BindGranted(client: Client, sid: nat, ghost hint: string, ghost clock: int)
      requires AwaitsOwner(sid) && sid !in owners
      requires Session(sid, hint, "", clock, clock) in sessions.sessions
      modifies this, sessions, router
      ensures Valid() && WaitersKept()
      ensures owners == (old(owners) - Owned(old(owners), client, sid))[sid := client]
      ensures Session(sid, hint, "", clock, clock) in sessions.sessions
      ensures hidOpen == old(hidOpen) ==> sent == old(sent)
      ensures old(owners) == map[] ==> NewIn(sid)
    {
      hide OnlyFocusedStreams, ShownOk, BuffersOk, InStep, ValidTable, Live, SidSet, NoticedSids, Notices, Dropped,
           Stale, StreamPackets, SessionManager.Valid, Vt100Router.Valid;
      var oldSids := SessionsOwnedBy(client, sid);
      NoSids(oldSids);
      NobodyOwns(owners, client, sid);
      NobodyLeftToTell((owners - SidSet(oldSids))[sid := client], sent, oldSids, Reclaimed);
      TakeOver(client, sid, oldSids);
      InvalidateAll(oldSids, Reclaimed);
    }

    method HandleHidSessionInvalid(packet: Packet, status: Status)
      requires Valid()
      modifies this, sessions, router
      ensures Valid()
      ensures packet.sid == SESSION_BROADCAST ==> owners == old(owners) && sessions.sessions == old(sessions.sessions)
      ensures packet.sid == SESSION_BROADCAST && old(pendingSessions) != [] ==>
                && pendingSessions == old(pendingSessions)[1..] && broadcasts == old(broadcasts)
                && asked == old(asked) && answered == old(answered) + [old(pendingSessions)[0].0]
                && sent == old(sent) + [Sent(old(pendingSessions)[0].0, Forwarded(packet))]
      ensures packet.sid == SESSION_BROADCAST && old(pendingSessions) == [] ==>
                && pendingSessions == [] && asked == old(asked) && answered == old(answered)
                && broadcasts == old(broadcasts) + [packet] && sent == old(sent)
      ensures packet.sid == SESSION_BROADCAST ==> Untouched()
      ensures packet.sid != SESSION_BROADCAST ==>
                && WaitersKept()
                && (hidOpen == old(hidOpen) ==> sent == old(sent) + if packet.sid in old(owners)
                                                    then [Sent(old(owners)[packet.sid], Revoked(packet.sid, status))]
                                                    else [])
                && owners == old(owners) - {packet.sid}
                && Live(sessions.sessions) == old(Live(sessions.sessions)) - {packet.sid}
    {
      hide OnlyFocusedStreams, ShownOk, BuffersOk, InStep, ValidTable, Live, SidSet, NoticedSids, Notices, Dropped,
           Stale, StreamPackets, SessionManager.Valid, Vt100Router.Valid;
      if packet.sid == SESSION_BROADCAST {
        if pendingSessions != [] {
          var client := pendingSessions[0].0;
          WaitersNext(pendingSessions);
          answered := answered + [client];
          pendingSessions := pendingSessions[1..];
          sent := sent + [Sent(client, Forwarded(packet))];
        } else {
          broadcasts := broadcasts + [packet];
        }
        return;
      }
      InvalidateOne(packet.sid, status);
    }

    /**
     * A focus opens the gate for a live session. The board is sent a cleared
     * screen and the whole buffer exactly when the router was not already on
     * that session; unfocusing only closes the gate.
     */
    method HandleHidSessionFocus(sid: nat, clock: int)
      requires Valid()
      modifies this, sessions, router
      ensures Valid() && WaitersKept() && owners == old(owners) && (hidOpen == old(hidOpen) ==> sent == old(sent))
      ensures Live(sessions.sessions) == old(Live(sessions.sessions))
      ensures sessions.sessions == if sid in old(Live(sessions.sessions))
                                   then Touched(old(sessions.sessions), sid, clock) else old(sessions.sessions)
      ensures focusedSid == if sid == SESSION_BROADCAST then None
                            else if sid in old(Live(sessions.sessions)) then Some(sid) else old(focusedSid)
      ensures sid != SESSION_BROADCAST && sid in old(Live(sessions.sessions)) ==> router.active == Some(sid)
      ensures sid != SESSION_BROADCAST && sid in old(Live(sessions.sessions)) && old(focusedSid) != Some(sid) ==>
                boardReplayed == (old(router.active) != Some(sid))
      ensures old(focusedSid) == Some(sid) ==> boardReplayed == old(boardReplayed)
      ensures sid != SESSION_BROADCAST && sid in old(Live(sessions.sessions)) && old(router.active) == Some(sid) ==>
                && hidOpen == old(hidOpen) && router.buffers == old(router.buffers)
                && (hidOpen && old(focusedSid) != Some(sid) ==> boardShown == [])
      ensures hidOpen && (sid == SESSION_BROADCAST || sid !in old(Live(sessions.sessions))) ==> txQueue == old(txQueue)
      ensures hidOpen && old(router.active) == Some(sid) && sid != SESSION_BROADCAST ==> txQueue == old(txQueue)
      ensures hidOpen && sid != SESSION_BROADCAST && sid in old(Live(sessions.sessions))
              && old(router.active) != Some(sid) ==>
                sid in router.buffers
                && var clear := [0x1B, 0x5B, 0x32, 0x4A, 0x1B, 0x5B, 0x48];
                   txQueue == old(txQueue) + StreamPackets(sid, clear + Flatten(router.buffers[sid]))
    {
      hide OnlyFocusedStreams, ShownOk, BuffersOk, InStep, ValidTable, Live, SidSet, NoticedSids, Notices, Dropped,
           Stale, StreamPackets, SessionManager.Valid, Vt100Router.Valid;
      router.ActiveIsBuffered();
      LiveTouched(sessions.sessions, sid, clock);
      LiveAre(sessions.sessions, sid);
      LiveIsNotBroadcast(sessions);
      var before := |router.calls|;
      if sid == SESSION_BROADCAST {
        focusedSid := None;
        var cleared := router.SetActive(None);
        HandleSinkCall(before);
        return;
      }
      if sid !in Sids(sessions.sessions) {
        return;
      }
      FocusLiveSession(sid, clock);
    }

    method FocusLiveSession(sid: nat, clock: int)
      requires Valid() && sid in Live(sessions.sessions)
      modifies this, sessions, router
      ensures Valid() && WaitersKept() && owners == old(owners) && (hidOpen == old(hidOpen) ==> sent == old(sent))
      ensures sessions.sessions == Touched(old(sessions.sessions), sid, clock)
      ensures Live(sessions.sessions) == old(Live(sessions.sessions))
      ensures focusedSid == router.active == Some(sid) && sid in router.buffers
      ensures old(focusedSid) != Some(sid) ==> boardReplayed == (old(router.active) != Some(sid))
      ensures old(focusedSid) == Some(sid) ==> boardReplayed == old(boardReplayed)
      ensures old(router.active) == Some(sid) ==>
                && hidOpen == old(hidOpen) && router.buffers == old(router.buffers)
                && (hidOpen && old(focusedSid) != Some(sid) ==> boardShown == [])
      ensures hidOpen && old(router.active) == Some(sid) ==> txQueue == old(txQueue)
      ensures hidOpen && old(router.active) != Some(sid) ==>
                txQueue == old(txQueue) + StreamPackets(sid, SCREEN_CLEAR + Flatten(router.buffers[sid]))
    {
      hide OnlyFocusedStreams, ShownOk, BuffersOk, InStep, ValidTable, Live, SidSet, Dropped, Stale, Touched, Waiters,
           StreamPackets, SessionManager.Valid, Vt100Router.Valid, Flatten, SCREEN_CLEAR, BoardInStep;
      LiveTouched(sessions.sessions, sid, clock);
      FocusStaysInStep(router, hidOpen, focusedSid, boardShown, boardReplayed, sid);
      if focusedSid != Some(sid) {
        boardShown, boardReplayed := [], router.active != Some(sid);
      }
      focusedSid := Some(sid);
      var touched := sessions.Touch(sid, clock);
      SwitchTo(sid);
    }

    /** The router's switch, with the screen it sends. */
    method SwitchTo(sid: nat)
      requires ValidOutput() && sid in router.buffers && focusedSid == Some(sid)
      requires BoardInStep(hidOpen, focusedSid, router.buffers, router.own,
                           if router.active != Some(sid)
                           then boardShown + (SCREEN_CLEAR + Flatten(router.buffers[sid])) else boardShown,
                           boardReplayed)
      modifies router, `hidOpen, `pendingSessions, `sent, `txQueue, `log, `boardShown
      ensures ValidOutput() && FocusInStep() && WaitersKept() && (hidOpen == old(hidOpen) ==> sent == old(sent))
      ensures router.active == Some(sid) && router.buffers == old(router.buffers)
      ensures old(router.active) == Some(sid) ==>
                hidOpen == old(hidOpen) && (hidOpen ==> boardShown == old(boardShown) && txQueue == old(txQueue))
      ensures hidOpen && old(router.active) != Some(sid) ==>
                txQueue == old(txQueue) + StreamPackets(sid, SCREEN_CLEAR + Flatten(router.buffers[sid]))
    {
      hide OnlyFocusedStreams, ShownOk, BuffersOk, InStep, Waiters, StreamPackets, Vt100Router.Valid, Flatten,
           SCREEN_CLEAR, BoardInStep;
      var before := |router.calls|;
      var switched := router.SetActive(Some(sid));
      HandleSinkCall(before);
      ClosedInStep(focusedSid, router.buffers, router.own, boardShown, boardReplayed);
    }

    // ---- time and connections

    /** A client that goes away gives up its sessions, one by one. */
    method HandleClientDisconnect(client: Client) returns (released: seq<nat>)
      requires Valid()
      modifies this, sessions, router
      ensures Valid() && WaitersKept()
      ensures SidSet(released) == Owned(old(owners), client, SESSION_BROADCAST)
      ensures hidOpen == old(hidOpen) ==>
                sent == old(sent) + Revocations(old(owners), Notices(released, Expired))
      ensures owners == old(owners) - Owned(old(owners), client, SESSION_BROADCAST)
      ensures forall sid :: sid in owners <==> sid in old(owners) && old(owners)[sid] != client
      ensures forall s :: s in sessions.sessions <==>
                s in old(sessions.sessions) && !(s.sid in old(owners) && old(owners)[s.sid] == client)
    {
      hide OnlyFocusedStreams, ShownOk, BuffersOk, InStep, ValidTable, Live, SidSet, NoticedSids, Notices, Dropped,
           Stale, StreamPackets, SessionManager.Valid, Vt100Router.Valid;
      LiveIsNotBroadcast(sessions);
      released := SessionsOwnedBy(client, SESSION_BROADCAST);
      InvalidateAll(released, Expired);
    }

    method ReapExpired(clock: int)
      requires Valid()
      modifies this, sessions, router
      ensures Valid() && WaitersKept()
      ensures Live(sessions.sessions)
           == old(Live(sessions.sessions)) - SidSet(Stale(old(sessions.sessions), clock - sessions.ttlMs))
      ensures var expired := Stale(old(sessions.sessions), clock - sessions.ttlMs);
              && sessions.sessions == Dropped(old(sessions.sessions), expired)
              && owners == old(owners) - SidSet(expired)
              && (hidOpen == old(hidOpen) ==> sent == old(sent) + Revocations(old(owners), Notices(expired, Expired)))
    {
      hide OnlyFocusedStreams, ShownOk, BuffersOk, InStep, ValidTable, Live, SidSet, NoticedSids, Notices, Dropped,
           Stale, StreamPackets, SessionManager.Valid, Vt100Router.Valid;
      var before := |sessions.notices|;
      LiveDropped(sessions.sessions, Stale(sessions.sessions, clock - sessions.ttlMs));
      NoticesAre(sessions.notices, Stale(sessions.sessions, clock - sessions.ttlMs));
      var expired := sessions.ReapExpired(clock);
      HandleNotices(before);
    }

    /**
     * The writer thread takes the next packet. A lost device is given up, and with
     * it the requests that wait; a packet it cannot encode is skipped.
     */
    method WriteOne(outcome: WriteOutcome) returns (packet: Option<Packet>)
      requires Valid()
      modifies `hidOpen, `pendingSessions, `sent, `txQueue
      ensures Valid()
      ensures old(txQueue) == [] ==> packet.None? && txQueue == []
      ensures old(txQueue) != [] ==> txQueue == old(txQueue)[1..]
      ensures packet == if old(txQueue) != [] && old(hidOpen) && outcome.Written? then Some(old(txQueue)[0]) else None
      ensures hidOpen == (old(hidOpen) && (old(txQueue) == [] || !outcome.DeviceLost?))
      ensures sent == old(sent) + if hidOpen == old(hidOpen) then [] else Refusals(old(pendingSessions))
      ensures pendingSessions == if hidOpen == old(hidOpen) then old(pendingSessions) else []
    {
      hide OnlyFocusedStreams, ShownOk, BuffersOk, InStep, ValidTable, Live, SessionManager.Valid,
           Vt100Router.Valid;
      packet := None;
      if txQueue == [] {
        return;
      }
      var next := txQueue[0];
      txQueue := txQueue[1..];
      if hidOpen {
        match outcome
        case Written => packet := Some(next);
        case DeviceLost => MarkHidrawUnavailable();
        case NotEncodable =>
      }
    }
  }

  /** One byte, kept whole. */
  lemma OneByteFits(b: byte, cap: nat)
    requires cap >= 1
    ensures Fitting([] + [[b]], cap) == [[b]] && Flatten([[b]]) == [b]
  {
    assert Total([[b]]) == 1 + Total([[b]][1..]);
    assert Flatten([[b]]) == [b] + Flatten([[b]][1..]);
  }

  /**
   * A run in which the board does not get the focused session's buffer: the
   * first session granted becomes the router's active one, receives output, and
   * is focused only then.
   */
  method FirstSessionIsNotReplayed(client: Client, ttlSeconds: int, clock: int) returns (d: Daemon)
    ensures fresh(d) && d.Valid() && d.hidOpen && d.focusedSid == Some(1)
    ensures 1 in d.router.buffers && Flatten(d.router.buffers[1]) == [120]
    ensures d.boardShown == [] && !EndsWith(d.boardShown, Flatten(d.router.buffers[1]))
  {
    hide OnlyFocusedStreams, ShownOk, BuffersOk, InStep, ValidTable, SidSet, NoticedSids, Notices, Dropped,
         Stale, StreamPackets, SessionManager.Valid, Vt100Router.Valid, Fitting, Flatten;
    d := new Daemon(256, ttlSeconds, true);
    d.ForwardSessionRequestToBoard(client, Packet(RequestSession, SESSION_BROADCAST, []), "unknown");
    var evicted := d.HandleHidSessionResponse(Packet(OtherKind(2), 1, []), Created, clock, clock);
    d.HandleVt100(1, client, [120], clock);
    OneByteFits(120, d.router.bufferBytes);
    d.HandleHidSessionFocus(1, clock);
  }
}

/**
 * The permission hand-off over whole runs: a tool hook asks, the board decides,
 * the hook polls. Shows where every answer a poll returns came from, that no
 * answer is used twice, and that the hook allows only what the board approved.
 */
module Permissions {
  import opened Wrappers
  import opened Utf8
  import opened Codec
  import opened Payloads
  import opened DaemonModel
  import opened DaemonInvariant

  /** The decision waiting to be polled for request `id` of agent `k`. */
  ghost function Stored(s: State, k: Key, id: U64): Option<Decision> {
    if k in s.agents && id in s.agents[k].resolvedPermissions
    then Some(s.agents[k].resolvedPermissions[id]) else None
  }

  /** The decision a board message brings for request `id` of the agent its sid is bound to. */
  ghost function Decides(s: State, e: Event, k: Key, id: U64): Option<Decision> {
    if e.BoardMessage? && e.cmd == Cmd.PermissionRes && e.sid != 0 && Owner(s, e.sid) == Some(k) then
      var r := DecodePermissionResponse(e.payload);
      if r.Some? && r.value.0 == id then Some(r.value.1) else None
    else None
  }

  /**
   * What uses up or revokes a stored decision: polling it, asking again under
   * the same id, or the agent being aborted or pruned.
   */
  ghost predicate Spends(s: State, e: Event, k: Key, id: U64) {
    match e
    case PollPermission(j, other) => j == k && other == id && !k.kind.Unknown?
    case RequestPermission(j, other, _, _) => j == k && other == id && !k.kind.Unknown?
    case AbortSession(j) => j == k && !k.kind.Unknown?
    case PruneMissing(latest) => k in Dropped(s, latest)
    case _ => false
  }

  // ---- one step

  lemma {:induction false} DiscoverKeepsStored(s: State, ds: seq<Discovered>, k: Key, id: U64)
    ensures Stored(Discover(s, ds), k, id) == Stored(s, k, id)
  {
    if ds != [] {
      DiscoverKeepsStored(s, ds[..|ds| - 1], k, id);
    }
  }

  lemma {:induction false} IngestKeepsStored(s: State, ts: seq<DiscoveredTurn>, k: Key, id: U64)
    ensures Stored(Ingest(s, ts), k, id) == Stored(s, k, id)
  {
    if ts != [] {
      IngestKeepsStored(s, ts[..|ts| - 1], k, id);
    }
  }

  lemma RegisterKeepsStored(s: State, r: Registration, k: Key, id: U64)
    ensures Stored(Register(s, r).next, k, id) == Stored(s, k, id)
  {
    hide SyncMessages;
  }

  lemma BoardStored(s: State, e: Event, k: Key, id: U64)
    requires Inv(s) && e.BoardMessage?
    ensures Stored(Board(s, e.cmd, e.sid, e.payload).next, k, id)
         == if Decides(s, e, k, id).Some? then Decides(s, e, k, id) else Stored(s, k, id)
  {
    hide HandlePermissionResponse, HandleSessionResponse, SyncMessages, ReplayMessage, Inv;
    DecisionStored(s, e.sid, e.payload, k, id);
    GrantKeepsStored(s, e.sid, e.payload, k, id);
  }

  lemma DecisionStored(s: State, sid: Sid, payload: seq<byte>, k: Key, id: U64)
    ensures var d := Decides(s, BoardMessage(Cmd.PermissionRes, sid, payload), k, id);
            Stored(HandlePermissionResponse(s, sid, payload).next, k, id) == if d.Some? then d else Stored(s, k, id)
  {
    hide DropRequest, DecodePermissionResponse;
  }

  lemma GrantKeepsStored(s: State, sid: Sid, payload: seq<byte>, k: Key, id: U64)
    ensures Stored(HandleSessionResponse(s, sid, payload).next, k, id) == Stored(s, k, id)
  {
    hide SyncMessages;
  }

  lemma OtherStored(s: State, e: Event, k: Key, id: U64)
    requires !e.RegisterAgent? && !e.DiscoverSessions? && !e.IngestTurns? && !e.BoardMessage?
    ensures Stored(Step(s, e), k, id) == if Spends(s, e, k, id) then None else Stored(s, k, id)
  {
    hide StatusMessage, TokenMessage, PermissionMessage, LiveRender, Owner, FocusedOwner, Unsent,
      Register, Discover, Ingest, Board;
  }

  /** Each step stores the decision it brings, or drops one that is spent, or changes nothing. */
  lemma StepStored(s: State, e: Event, k: Key, id: U64)
    requires Inv(s)
    ensures Stored(Step(s, e), k, id)
         == if Decides(s, e, k, id).Some? then Decides(s, e, k, id)
            else if Spends(s, e, k, id) then None
            else Stored(s, k, id)
  {
    hide Stored, Register, Activity, Tokens, AddTurn, AskPermission, Resolve, Poll, Stream, Abort, Discover,
      Ingest, Prune, Board, Beat, FlushOutbox;
    match e
    case RegisterAgent(r) => RegisterKeepsStored(s, r, k, id);
    case DiscoverSessions(ds) => DiscoverKeepsStored(s, ds, k, id);
    case IngestTurns(ts) => IngestKeepsStored(s, ts, k, id);
    case BoardMessage(_, _, _) => BoardStored(s, e, k, id);
    case _ => OtherStored(s, e, k, id);
  }

  // ---- whole runs

  /** Event `i` brought decision `d`, and nothing has replaced or spent it since. */
  ghost predicate Stands(es: seq<Event>, i: nat, k: Key, id: U64, d: Decision) {
    && i < |es|
    && Decides(Run(INITIAL, es[..i]), es[i], k, id) == Some(d)
    && forall j :: i < j < |es| ==>
         && Decides(Run(INITIAL, es[..j]), es[j], k, id).None?
         && !Spends(Run(INITIAL, es[..j]), es[j], k, id)
  }

  lemma StandsSnoc(es: seq<Event>, e: Event, i: nat, k: Key, id: U64, d: Decision)
    ensures Stands(es + [e], i, k, id, d)
       <==> (if i == |es| then Decides(Run(INITIAL, es), e, k, id) == Some(d)
             else Stands(es, i, k, id, d)
                  && Decides(Run(INITIAL, es), e, k, id).None? && !Spends(Run(INITIAL, es), e, k, id))
  {
    hide Decides, Spends, Run;
    var all := es + [e];
    assert all[..|es|] == es;
    assert forall j :: 0 <= j < |es| ==> all[..j] == es[..j] && all[j] == es[j];
  }

  /** A decision is waiting exactly when some board answer for it still stands. */
  lemma {:induction false} StoredIffStands(es: seq<Event>, k: Key, id: U64, d: Decision)
    ensures Stored(Run(INITIAL, es), k, id) == Some(d) <==> exists i: nat :: Stands(es, i, k, id, d)
  {
    hide Step, Inv, Decides, Spends;
    if es == [] {
      return;
    }
    hide Stored, Stands;
    var init, e := es[..|es| - 1], es[|es| - 1];
    var s := Run(INITIAL, init);
    assert es == init + [e];
    InitialInv();
    RunKeepsInv(INITIAL, init);
    StoredIffStands(init, k, id, d);
    StepStored(s, e, k, id);
    forall i: nat { StandsSnoc(init, e, i, k, id, d); }
    StandsBound(init, k, id, d);
    if Decides(s, e, k, id) == Some(d) {
      assert Stands(es, |init|, k, id, d);
    }
  }

  lemma StandsBound(es: seq<Event>, k: Key, id: U64, d: Decision)
    ensures forall i: nat :: Stands(es, i, k, id, d) ==> i < |es|
  {
  }

  /** In every reachable state no request is both waiting for the board and decided. */
  lemma PendingAndDecidedDisjoint(es: seq<Event>, k: Key, id: U64)
    requires Stored(Run(INITIAL, es), k, id).Some?
    ensures !HasRequest(Run(INITIAL, es).agents[k].pendingPermissions, id)
  {
    var s := Run(INITIAL, es);
    InitialInv();
    RunKeepsInv(INITIAL, es);
    assert AgentSound(k, s.agents[k]);
  }

  /** Poll number `p` of the run returned decision `d`. */
  ghost predicate Returned(es: seq<Event>, p: nat, d: Decision) {
    p < |es| && es[p].PollPermission? && React(Run(INITIAL, es[..p]), es[p]).reply == Decided(d)
  }

  lemma ReturnedIsStored(s: State, e: Event, d: Decision)
    requires e.PollPermission? && React(s, e).reply == Decided(d)
    ensures Stored(s, e.key, e.reqId) == Some(d) && !e.key.kind.Unknown?
  {
    hide HasRequest;
  }

  /**
   * A poll returns what the board sent for this request through a sid that was
   * then bound to this agent; after it came no new request under that id, no
   * other poll of it, and no abort of the agent.
   */
  lemma PollReturnsBoardDecision(es: seq<Event>, p: nat, d: Decision) returns (i: nat)
    requires Returned(es, p, d)
    ensures Stands(es[..p], i, es[p].key, es[p].reqId, d)
    ensures i < p && es[i].BoardMessage? && es[i].cmd == Cmd.PermissionRes
    ensures DecodePermissionResponse(es[i].payload) == Some((es[p].reqId, d))
    ensures Owns(Run(INITIAL, es[..i]), es[p].key, es[i].sid)
    ensures forall j :: i < j < p ==>
      && !(es[j].RequestPermission? && es[j].key == es[p].key && es[j].reqId == es[p].reqId)
      && !(es[j].PollPermission? && es[j].key == es[p].key && es[j].reqId == es[p].reqId)
      && !(es[j].AbortSession? && es[j].key == es[p].key)
  {
    hide Step, Run;
    var init := es[..p];
    var k, id := es[p].key, es[p].reqId;
    ReturnedIsStored(Run(INITIAL, init), es[p], d);
    StoredIffStands(init, k, id, d);
    i :| Stands(init, i, k, id, d);
    assert init[..i] == es[..i];
    forall j | i < j < p
      ensures !Spends(Run(INITIAL, es[..j]), es[j], k, id)
    {
      assert init[..j] == es[..j] && init[j] == es[j];
    }
  }

  /** The board answer a returning poll used. */
  ghost function AnswerTo(es: seq<Event>, p: nat, d: Decision): (i: nat)
    requires Returned(es, p, d)
    ensures Stands(es[..p], i, es[p].key, es[p].reqId, d)
  {
    PollHasAnswer(es, p, d);
    var i: nat :| Stands(es[..p], i, es[p].key, es[p].reqId, d);
    i
  }

  lemma PollHasAnswer(es: seq<Event>, p: nat, d: Decision)
    requires Returned(es, p, d)
    ensures exists i: nat :: Stands(es[..p], i, es[p].key, es[p].reqId, d)
  {
    var _ := PollReturnsBoardDecision(es, p, d);
  }

  lemma DecidesOneRequest(s: State, e: Event, k: Key, id: U64, k': Key, id': U64)
    ensures Decides(s, e, k, id).Some? && Decides(s, e, k', id').Some? ==> k == k' && id == id'
  {
  }

  lemma ReturnSpends(es: seq<Event>, p: nat, d: Decision)
    requires Returned(es, p, d)
    ensures Spends(Run(INITIAL, es[..p]), es[p], es[p].key, es[p].reqId)
  {
    ReturnedIsStored(Run(INITIAL, es[..p]), es[p], d);
  }

  /** Two polls that return a decision never return the same board answer. */
  lemma EachAnswerIsReturnedOnce(es: seq<Event>, p: nat, d: Decision, q: nat, d': Decision)
    requires p < q && Returned(es, p, d) && Returned(es, q, d')
    ensures AnswerTo(es, p, d) != AnswerTo(es, q, d')
  {
    ReturnSpends(es, p, d);
    var i, j := AnswerTo(es, p, d), AnswerTo(es, q, d');
    hide Run, Decides, Spends;
    assert es[..p][..i] == es[..i] && es[..q][..j] == es[..j];
    assert es[..q][..p] == es[..p] && es[..q][p] == es[p];
    DecidesOneRequest(Run(INITIAL, es[..i]), es[i], es[p].key, es[p].reqId, es[q].key, es[q].reqId);
  }

  // ---- the hook

  /** What the hook's polling loop ends with. */
  datatype PollResult = Answer(decision: Decision) | Ask | Thrown(error: Error)

  /** What the hook prints: a verdict for the tool call, or just "continue". */
  datatype Verdict = VerdictAllow | VerdictDeny | VerdictAsk | NoVerdict

  function Concluded(replies: seq<Reply>): PollResult {
    if replies == [] then Ask
    else
      match replies[0]
      case Decided(d) => Answer(d)
      case Waiting(pending) => if pending then Concluded(replies[1..]) else Ask
      case Refused(error) => Thrown(error)
      case _ => Concluded(replies[1..])
  }

  /** The loop over the replies that arrive before the deadline. */
  method PollUntilDeadline(replies: seq<Reply>) returns (r: PollResult)
    ensures r == Concluded(replies)
  {
    var i := 0;
    while i < |replies|
      invariant i <= |replies| && Concluded(replies) == Concluded(replies[i..])
    {
      match replies[i] {
        case Decided(d) => return Answer(d);
        case Waiting(pending) =>
          if !pending {
            return Ask;
          }
        case Refused(error) => return Thrown(error);
        case _ =>
      }
      i := i + 1;
    }
    r := Ask;
  }

  function Printed(r: PollResult): Verdict {
    match r
    case Answer(d) => if d == Deny then VerdictDeny else VerdictAllow
    case Ask => VerdictAsk
    case Thrown(_) => NoVerdict
  }

  /** The polls of one tool call and the daemon's replies to them, all after its request. */
  ghost predicate HookPolls(es: seq<Event>, r: nat, polls: seq<nat>, replies: seq<Reply>) {
    && r < |es| && es[r].RequestPermission? && !es[r].key.kind.Unknown?
    && |replies| == |polls|
    && forall n :: 0 <= n < |polls| ==>
         && r < polls[n] < |es|
         && es[polls[n]] == Event.PollPermission(es[r].key, es[r].reqId)
         && replies[n] == React(Run(INITIAL, es[..polls[n]]), es[polls[n]]).reply
  }

  lemma {:induction false} ConclusionCameFromAPoll(replies: seq<Reply>) returns (n: nat)
    requires Concluded(replies).Answer?
    ensures n < |replies| && replies[n] == Decided(Concluded(replies).decision)
  {
    if replies[0].Decided? {
      n := 0;
    } else {
      var m := ConclusionCameFromAPoll(replies[1..]);
      n := m + 1;
    }
  }

  /**
   * The hook's verdict is the board's: it prints "allow" only after the board
   * answered Allow or Always, and "deny" only after it answered Deny, to this
   * very request, later than it was made, through a sid bound to this agent.
   */
  lemma HookVerdictIsTheBoards(es: seq<Event>, r: nat, polls: seq<nat>, replies: seq<Reply>)
    returns (i: nat, d: Decision)
    requires HookPolls(es, r, polls, replies)
    requires Printed(Concluded(replies)) in {VerdictAllow, VerdictDeny}
    ensures r < i < |es|
    ensures Decides(Run(INITIAL, es[..i]), es[i], es[r].key, es[r].reqId) == Some(d)
    ensures Printed(Concluded(replies)) == VerdictAllow ==> d == Allow || d == Always
    ensures Printed(Concluded(replies)) == VerdictDeny ==> d == Deny
  {
    hide Step, React, Run, Decides;
    var n := ConclusionCameFromAPoll(replies);
    d := Concluded(replies).decision;
    var p := polls[n];
    assert Returned(es, p, d);
    i := PollReturnsBoardDecision(es, p, d);
    assert es[..p][..i] == es[..i];
    assert i != r && !(i < r < p);
  }
}

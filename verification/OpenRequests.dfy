/**
 * Which permission requests wait for the board, read off the events of a run; what
 * a poll therefore answers; and what the tool hook concludes from its polls.
 */
module OpenRequests {
  import opened Wrappers
  import opened Codec
  import opened Payloads
  import opened DaemonModel
  import opened DaemonInvariant
  import opened Permissions

  predicate AsksFor(e: Event, k: Key, id: U64) {
    e.RequestPermission? && e.key == k && e.reqId == id && !k.kind.Unknown?
  }

  predicate Resolves(e: Event, k: Key, id: U64) {
    e.ResolvePermission? && e.key == k && e.reqId == id && !k.kind.Unknown?
  }

  /** What ends the waiting: the agent resolves it, the board decides it, or the agent goes away. */
  ghost predicate Closes(s: State, e: Event, k: Key, id: U64) {
    Resolves(e, k, id) || Decides(s, e, k, id).Some? || k !in Step(s, e).agents
  }

  function PendingOf(s: State, k: Key): seq<Permission> {
    if k in s.agents then s.agents[k].pendingPermissions else []
  }

  /** The request an event makes of agent `k`. */
  function Asked(s: State, e: Event, k: Key): Permission
    requires e.RequestPermission? && k in s.agents
  {
    Permission(e.reqId, if s.agents[k].sid.Some? then s.agents[k].sid.value else 0, e.tool, e.args)
  }

  // ---- one step

  lemma {:induction false} DiscoverPending(s: State, ds: seq<Discovered>, k: Key)
    ensures PendingOf(Discover(s, ds), k) == PendingOf(s, k)
  {
    if ds != [] {
      DiscoverPending(s, ds[..|ds| - 1], k);
    }
  }

  lemma {:induction false} IngestPending(s: State, ts: seq<DiscoveredTurn>, k: Key)
    ensures PendingOf(Ingest(s, ts), k) == PendingOf(s, k)
  {
    if ts != [] {
      IngestPending(s, ts[..|ts| - 1], k);
    }
  }

  lemma RegisterPending(s: State, r: Registration, k: Key)
    ensures PendingOf(Register(s, r).next, k) == PendingOf(s, k)
  {
    hide SyncMessages, HintMessage, ParentOf, IsBlank;
  }

  lemma BoardPending(s: State, e: Event, k: Key)
    requires e.BoardMessage?
    ensures PendingOf(Step(s, e), k) ==
              if e.cmd == Cmd.PermissionRes && e.sid != 0 && Owner(s, e.sid) == Some(k)
                 && DecodePermissionResponse(e.payload).Some?
              then DropRequest(PendingOf(s, k), DecodePermissionResponse(e.payload).value.0) else PendingOf(s, k)
  {
    hide React, SyncMessages, ReplayMessage, DropRequest, DecodePermissionResponse;
    BoardReacts(s, e);
  }

  lemma OtherPending(s: State, e: Event, k: Key)
    requires !e.RegisterAgent? && !e.DiscoverSessions? && !e.IngestTurns? && !e.BoardMessage?
    requires k in Step(s, e).agents
    ensures k in s.agents
    ensures PendingOf(Step(s, e), k) ==
              if e.RequestPermission? && AsksFor(e, k, e.reqId) then PendingOf(s, k) + [Asked(s, e, k)]
              else if e.ResolvePermission? && Resolves(e, k, e.reqId) then DropRequest(PendingOf(s, k), e.reqId)
              else PendingOf(s, k)
  {
    hide StatusMessage, TokenMessage, PermissionMessage, LiveRender, Owner, FocusedOwner, Unsent, HasRequest,
         DropRequest, Register, Discover, Ingest, Board, IsBlank;
  }

  /** A request joins the ones pending, or leaves them. */
  lemma PendingStep(s: State, e: Event, k: Key)
    requires k in Step(s, e).agents
    ensures PendingOf(Step(s, e), k) ==
              if e.RequestPermission? && AsksFor(e, k, e.reqId) && k in s.agents then PendingOf(s, k) + [Asked(s, e, k)]
              else if e.ResolvePermission? && Resolves(e, k, e.reqId) then DropRequest(PendingOf(s, k), e.reqId)
              else if e.BoardMessage? && e.cmd == Cmd.PermissionRes && e.sid != 0 && Owner(s, e.sid) == Some(k)
                      && DecodePermissionResponse(e.payload).Some?
              then DropRequest(PendingOf(s, k), DecodePermissionResponse(e.payload).value.0)
              else PendingOf(s, k)
  {
    hide Register, Discover, Ingest, Board, DropRequest, DecodePermissionResponse, PendingOf;
    match e
    case RegisterAgent(r) => RegisterPending(s, r, k);
    case DiscoverSessions(ds) => DiscoverPending(s, ds, k);
    case IngestTurns(ts) => IngestPending(s, ts, k);
    case BoardMessage(_, _, _) => BoardPending(s, e, k);
    case _ => OtherPending(s, e, k);
  }

  ghost predicate IsPending(s: State, k: Key, id: U64) {
    exists p :: p in PendingOf(s, k) && p.reqId == id
  }

  lemma HasRequestMeans(s: State, k: Key, id: U64)
    requires k in s.agents
    ensures HasRequest(s.agents[k].pendingPermissions, id) <==> IsPending(s, k, id)
  {
    var ps := s.agents[k].pendingPermissions;
    if HasRequest(ps, id) {
      var i :| 0 <= i < |ps| && ps[i].reqId == id;
      assert ps[i] in PendingOf(s, k);
    }
  }

  /** A request is pending after a step exactly when the step asks for it, or it was and the step does not close it. */
  lemma IsPendingStep(s: State, e: Event, k: Key, id: U64)
    ensures IsPending(Step(s, e), k, id) <==>
              (AsksFor(e, k, id) && k in s.agents) || (IsPending(s, k, id) && !Closes(s, e, k, id))
  {
    hide Step, DropRequest, DecodePermissionResponse, PendingOf;
    if k in Step(s, e).agents {
      PendingStep(s, e, k);
      NewcomerIsIdle(s, e, k);
      if e.RequestPermission? && AsksFor(e, k, id) && k in s.agents {
        assert Asked(s, e, k) in PendingOf(Step(s, e), k);
      }
    } else {
      GoneIsIdle(s, e, k);
    }
  }

  lemma NewcomerIsIdle(s: State, e: Event, k: Key)
    ensures k !in s.agents ==> PendingOf(s, k) == []
  {
  }

  /** An agent that goes away has nothing pending, and no request makes it go. */
  lemma GoneIsIdle(s: State, e: Event, k: Key)
    requires k !in Step(s, e).agents
    ensures PendingOf(Step(s, e), k) == [] && !(e.RequestPermission? && k in s.agents)
  {
    hide PermissionMessage, LiveRender;
  }

  // ---- whole runs

  /** Event `i` asked for the request, and nothing has closed it since. */
  ghost predicate Open(es: seq<Event>, i: nat, k: Key, id: U64) {
    && i < |es| && AsksFor(es[i], k, id) && k in Run(INITIAL, es[..i]).agents
    && forall j :: i < j < |es| ==> !Closes(Run(INITIAL, es[..j]), es[j], k, id)
  }

  ghost predicate IsOpen(es: seq<Event>, k: Key, id: U64) {
    exists i: nat :: Open(es, i, k, id)
  }

  lemma OpenSnoc(es: seq<Event>, e: Event, i: nat, k: Key, id: U64)
    ensures Open(es + [e], i, k, id) <==>
              if i == |es| then AsksFor(e, k, id) && k in Run(INITIAL, es).agents
              else Open(es, i, k, id) && !Closes(Run(INITIAL, es), e, k, id)
  {
    hide Closes, AsksFor, Run;
    var all := es + [e];
    assert all[..|es|] == es;
    assert forall j :: 0 <= j < |es| ==> all[..j] == es[..j] && all[j] == es[j];
  }

  lemma IsOpenSnoc(es: seq<Event>, e: Event, k: Key, id: U64)
    ensures IsOpen(es + [e], k, id) <==>
              || (AsksFor(e, k, id) && k in Run(INITIAL, es).agents)
              || (IsOpen(es, k, id) && !Closes(Run(INITIAL, es), e, k, id))
  {
    hide Open, Closes, AsksFor, Run;
    forall i: nat { OpenSnoc(es, e, i, k, id); }
    if AsksFor(e, k, id) && k in Run(INITIAL, es).agents {
      assert Open(es + [e], |es|, k, id);
    } else if IsOpen(es, k, id) && !Closes(Run(INITIAL, es), e, k, id) {
      var i: nat :| Open(es, i, k, id);
      OpenBefore(es, i, k, id);
      assert Open(es + [e], i, k, id);
    }
  }

  lemma OpenBefore(es: seq<Event>, i: nat, k: Key, id: U64)
    requires Open(es, i, k, id)
    ensures i < |es|
  {
  }

  /** A request waits for the board in exactly the runs that asked for it and have not closed it since. */
  lemma {:induction false} PendingIffOpen(es: seq<Event>, k: Key, id: U64)
    ensures IsPending(Run(INITIAL, es), k, id) <==> IsOpen(es, k, id)
  {
    hide Step, IsPending, Closes, AsksFor, IsOpen;
    if es == [] {
      NothingPending(k, id);
    } else {
      var init, e := es[..|es| - 1], es[|es| - 1];
      assert es == init + [e];
      PendingIffOpen(init, k, id);
      IsPendingStep(Run(INITIAL, init), e, k, id);
      IsOpenSnoc(init, e, k, id);
    }
  }

  lemma NothingPending(k: Key, id: U64)
    ensures !IsPending(Run(INITIAL, []), k, id) && !IsOpen([], k, id)
  {
  }

  ghost predicate IsDecided(es: seq<Event>, k: Key, id: U64, d: Decision) {
    exists i: nat :: Stands(es, i, k, id, d)
  }

  lemma PollReplies(s: State, k: Key, id: U64)
    requires Inv(s)
    ensures React(s, Event.PollPermission(k, id)).reply ==
              if k.kind.Unknown? then Refused(UnknownKind)
              else if k !in s.agents then Refused(NoSuchAgent)
              else if Stored(s, k, id).Some? then Decided(Stored(s, k, id).value)
              else Waiting(IsPending(s, k, id))
  {
    hide Inv, HasRequest, IsPending;
    if k in s.agents {
      HasRequestMeans(s, k, id);
    }
  }

  lemma StoredIsNotPending(s: State, k: Key, id: U64)
    requires Inv(s) && Stored(s, k, id).Some?
    ensures !IsPending(s, k, id)
  {
    assert AgentSound(k, s.agents[k]);
    HasRequestMeans(s, k, id);
    hide IsPending, HasRequest;
  }

  /** Only agents of a known kind are asked for, and only registered ones wait. */
  lemma OpenIsKnown(es: seq<Event>, k: Key, id: U64)
    requires IsOpen(es, k, id)
    ensures !k.kind.Unknown? && k in Run(INITIAL, es).agents
  {
    PendingIffOpen(es, k, id);
    hide Run;
  }

  /**
   * What a poll answers, in every run: the decision that stands; else that the
   * request still waits, exactly when it was asked for and not closed since; else
   * that it does not.
   */
  lemma PollAnswersIff(es: seq<Event>, k: Key, id: U64, d: Decision)
    ensures var reply := React(Run(INITIAL, es), Event.PollPermission(k, id)).reply;
            && (reply == Decided(d) <==> !k.kind.Unknown? && IsDecided(es, k, id, d))
            && (reply == Waiting(true) <==> IsOpen(es, k, id))
            && (reply == Waiting(false) <==>
                  && !k.kind.Unknown? && k in Run(INITIAL, es).agents && !IsOpen(es, k, id)
                  && forall other :: !IsDecided(es, k, id, other))
            && (reply == Refused(NoSuchAgent) <==> !k.kind.Unknown? && k !in Run(INITIAL, es).agents)
            && (reply == Refused(UnknownKind) <==> k.kind.Unknown?)
  {
    hide Step, React, Inv, Stands, IsOpen, IsPending;
    var s := Run(INITIAL, es);
    InitialInv();
    RunKeepsInv(INITIAL, es);
    PollReplies(s, k, id);
    PendingIffOpen(es, k, id);
    forall other ensures IsDecided(es, k, id, other) <==> Stored(s, k, id) == Some(other) {
      StoredIffStands(es, k, id, other);
    }
    if Stored(s, k, id).Some? {
      StoredIsNotPending(s, k, id);
    }
    if IsOpen(es, k, id) {
      OpenIsKnown(es, k, id);
    }
  }

  function CountOf(ps: seq<Permission>, id: U64): nat {
    if ps == [] then 0 else (if ps[0].reqId == id then 1 else 0) + CountOf(ps[1..], id)
  }

  lemma {:induction false} DroppedAreCounted(ps: seq<Permission>, id: U64)
    ensures |ps| == |DropRequest(ps, id)| + CountOf(ps, id)
  {
    if ps != [] {
      DroppedAreCounted(ps[1..], id);
    }
  }

  /** The answer to a resolution is how many requests it removed: all those pending under the id. */
  lemma ResolutionCounts(s: State, k: Key, id: U64)
    requires !k.kind.Unknown? && k in s.agents
    ensures var e := Event.ResolvePermission(k, id);
            && React(s, e).reply == Removed(CountOf(PendingOf(s, k), id))
            && !IsPending(Step(s, e), k, id)
  {
    DroppedAreCounted(s.agents[k].pendingPermissions, id);
    hide DropRequest, CountOf;
  }

  // ---- the hook

  /** The first of the hook's polls at which its request no longer waits; all of them, if there is none. */
  ghost predicate FirstClosed(es: seq<Event>, r: nat, polls: seq<nat>, n: nat)
    requires r < |es| && es[r].RequestPermission? && forall m :: 0 <= m < |polls| ==> polls[m] < |es|
  {
    && n <= |polls|
    && (forall m :: 0 <= m < n ==> IsOpen(es[..polls[m]], es[r].key, es[r].reqId))
    && (n < |polls| ==> !IsOpen(es[..polls[n]], es[r].key, es[r].reqId))
  }

  lemma {:induction false} ConcludedAt(replies: seq<Reply>, n: nat)
    requires n <= |replies| && forall m :: 0 <= m < n ==> replies[m] == Waiting(true)
    ensures Concluded(replies) == Concluded(replies[n..])
  {
    if n > 0 {
      assert replies[1..][n - 1..] == replies[n..];
      ConcludedAt(replies[1..], n - 1);
    }
  }

  /**
   * The hook goes on polling for as long as its request waits. The first poll at
   * which it no longer does settles the verdict: the board's decision, if one
   * stands; else "ask", as when the deadline comes first.
   */
  lemma HookConcludes(es: seq<Event>, r: nat, polls: seq<nat>, replies: seq<Reply>, n: nat)
    requires HookPolls(es, r, polls, replies) && FirstClosed(es, r, polls, n)
    ensures n == |polls| ==> Printed(Concluded(replies)) == VerdictAsk
    ensures n < |polls| ==>
              var before, k, id := es[..polls[n]], es[r].key, es[r].reqId;
              && (forall d :: IsDecided(before, k, id, d) ==>
                    Printed(Concluded(replies)) == if d == Deny then VerdictDeny else VerdictAllow)
              && ((forall d :: !IsDecided(before, k, id, d)) ==>
                    Printed(Concluded(replies)) == if k in Run(INITIAL, before).agents then VerdictAsk else NoVerdict)
  {
    hide React, Run, IsOpen, IsDecided;
    var k, id := es[r].key, es[r].reqId;
    forall m | 0 <= m < n ensures replies[m] == Waiting(true) {
      PollAnswersIff(es[..polls[m]], k, id, Allow);
    }
    ConcludedAt(replies, n);
    if n < |polls| {
      assert replies[n..][0] == replies[n];
      PollSettles(es[..polls[n]], k, id);
    }
  }

  lemma PollSettles(es: seq<Event>, k: Key, id: U64)
    requires !k.kind.Unknown? && !IsOpen(es, k, id)
    ensures var reply := React(Run(INITIAL, es), Event.PollPermission(k, id)).reply;
            && (forall d :: IsDecided(es, k, id, d) ==> reply == Decided(d))
            && ((forall d :: !IsDecided(es, k, id, d)) ==>
                  reply == if k in Run(INITIAL, es).agents then Waiting(false) else Refused(NoSuchAgent))
  {
    hide React, Run, IsOpen, IsDecided;
    PollAnswersIff(es, k, id, Allow);
    forall d
      ensures React(Run(INITIAL, es), Event.PollPermission(k, id)).reply == Decided(d) <==> IsDecided(es, k, id, d)
    {
      PollAnswersIff(es, k, id, d);
    }
  }

  /**
   * So when the request waits until the board answers it and a poll comes while
   * that answer stands, with none between, the verdict is the board's.
   */
  lemma HookHearsTheBoard(es: seq<Event>, r: nat, polls: seq<nat>, replies: seq<Reply>, a: nat, n: nat, d: Decision)
    requires HookPolls(es, r, polls, replies) && n < |polls| && a < polls[n]
    requires es[r].key in Run(INITIAL, es[..r]).agents
    requires forall j :: r < j < a ==> !Closes(Run(INITIAL, es[..j]), es[j], es[r].key, es[r].reqId)
    requires Stands(es[..polls[n]], a, es[r].key, es[r].reqId, d)
    requires forall m :: 0 <= m < n ==> polls[m] <= a
    ensures Printed(Concluded(replies)) == if d == Deny then VerdictDeny else VerdictAllow
  {
    hide React, Run, IsOpen, IsDecided, Stands, Open, Closes;
    var k, id := es[r].key, es[r].reqId;
    AnswerComesAfter(es, r, polls[n], a, d);
    forall m | 0 <= m < n ensures IsOpen(es[..polls[m]], k, id) {
      assert polls[m] != a;
      StillOpen(es, r, polls[m]);
    }
    assert IsDecided(es[..polls[n]], k, id, d) by {
      DecidedBy(es[..polls[n]], a, k, id, d);
    }
    PollAnswersIff(es[..polls[n]], k, id, d);
    HookConcludes(es, r, polls, replies, n);
  }

  lemma DecidedBy(es: seq<Event>, i: nat, k: Key, id: U64, d: Decision)
    requires Stands(es, i, k, id, d)
    ensures IsDecided(es, k, id, d)
  {
  }

  /** A decision that still stands after the request came after it. */
  lemma AnswerComesAfter(es: seq<Event>, r: nat, p: nat, a: nat, d: Decision)
    requires r < p <= |es| && es[r].RequestPermission? && !es[r].key.kind.Unknown?
    requires Stands(es[..p], a, es[r].key, es[r].reqId, d)
    ensures r < a < p && es[a].BoardMessage?
  {
    hide Run;
    assert es[..p][r] == es[r];
  }

  lemma StillOpen(es: seq<Event>, r: nat, p: nat)
    requires r < p <= |es| && es[r].RequestPermission? && !es[r].key.kind.Unknown?
    requires es[r].key in Run(INITIAL, es[..r]).agents
    requires forall j :: r < j < p ==> !Closes(Run(INITIAL, es[..j]), es[j], es[r].key, es[r].reqId)
    ensures IsOpen(es[..p], es[r].key, es[r].reqId)
  {
    hide Run, Closes;
    var before := es[..p];
    assert forall j :: 0 <= j < p ==> before[..j] == es[..j] && before[j] == es[j];
    assert Open(before, r, es[r].key, es[r].reqId);
  }
}

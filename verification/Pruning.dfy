/**
 * When a discovery poll drops an agent: three polls must miss it while it is bound
 * and known from discovery only, with nothing seeing it in between.
 */
module Pruning {
  import opened Wrappers
  import opened Payloads
  import opened DaemonModel
  import opened DaemonInvariant
  import opened Bindings

  /** The agent is known from discovery only: neither a hook nor a launch registered it. */
  predicate OnlyDiscovered(s: State, k: Key) {
    k in s.agents && !s.agents[k].fromHook && !s.agents[k].fromLaunch
  }

  predicate BoundOnlyDiscovered(s: State, k: Key) {
    OnlyDiscovered(s, k) && s.agents[k].sid.Some?
  }

  /** A poll or a discovery that sees the agent. */
  predicate Sees(e: Event, k: Key) {
    (e.PruneMissing? && k in e.latest) || (e.DiscoverSessions? && Lists(e.sessions, k))
  }

  predicate Misses(s: State, e: Event, k: Key) {
    e.PruneMissing? && k !in e.latest && BoundOnlyDiscovered(s, k)
  }

  /** How many polls missed the agent since it was last seen. */
  ghost function MissedSince(es: seq<Event>, k: Key): nat {
    if es == [] then 0
    else
      var init, e := es[..|es| - 1], es[|es| - 1];
      if Sees(e, k) then 0 else MissedSince(init, k) + if Misses(Run(INITIAL, init), e, k) then 1 else 0
  }

  /** The daemon's counter for `k`, 0 when it has none. */
  function Counter(s: State, k: Key): nat {
    if k in s.missing then s.missing[k] else 0
  }

  // ---- one step

  function KeysListed(ds: seq<Discovered>): set<Key> {
    set d | d in ds :: Key(d.kind, d.id)
  }

  lemma ListedSnoc(ds: seq<Discovered>, d: Discovered)
    ensures KeysListed(ds + [d]) == KeysListed(ds) + {Key(d.kind, d.id)}
  {
    forall k ensures k in KeysListed(ds + [d]) <==> k in KeysListed(ds) + {Key(d.kind, d.id)} {
      if k in KeysListed(ds) {
        var other :| other in ds && Key(other.kind, other.id) == k;
        assert other in ds + [d];
      }
      assert d in ds + [d];
    }
  }

  lemma DiscoverOneCounts(s: State, d: Discovered)
    ensures DiscoverOne(s, d).missing == s.missing - {Key(d.kind, d.id)}
  {
    hide HintMessage;
  }

  lemma {:induction false} DiscoverCounts(s: State, ds: seq<Discovered>)
    ensures Discover(s, ds).missing == s.missing - KeysListed(ds)
  {
    hide DiscoverOne;
    if ds != [] {
      var init, d := ds[..|ds| - 1], ds[|ds| - 1];
      assert ds == init + [d];
      DiscoverCounts(s, init);
      DiscoverOneCounts(Discover(s, init), d);
      ListedSnoc(init, d);
      hide KeysListed;
      assert s.missing - KeysListed(init) - {Key(d.kind, d.id)} == s.missing - (KeysListed(init) + {Key(d.kind, d.id)});
    }
  }

  lemma DiscoverCounter(s: State, ds: seq<Discovered>, k: Key)
    ensures k in Discover(s, ds).missing <==> k in s.missing && !Lists(ds, k)
    ensures Counter(Discover(s, ds), k) == if Lists(ds, k) then 0 else Counter(s, k)
  {
    hide Discover;
    DiscoverCounts(s, ds);
    if Lists(ds, k) {
      var i :| 0 <= i < |ds| && Key(ds[i].kind, ds[i].id) == k;
      assert ds[i] in ds;
    } else {
      forall d | d in ds ensures Key(d.kind, d.id) != k {
        var i :| 0 <= i < |ds| && ds[i] == d;
      }
    }
  }

  lemma {:induction false} IngestFlags(s: State, ts: seq<DiscoveredTurn>, k: Key)
    ensures var t := Ingest(s, ts);
            && t.missing == s.missing && t.agents.Keys == s.agents.Keys
            && (OnlyDiscovered(t, k) <==> OnlyDiscovered(s, k))
  {
    if ts != [] {
      IngestFlags(s, ts[..|ts| - 1], k);
    }
  }

  lemma RegisterFlags(s: State, r: Registration, k: Key)
    ensures var t := Register(s, r).next;
            && t.missing == s.missing
            && (OnlyDiscovered(t, k) ==> OnlyDiscovered(s, k))
  {
    hide SyncMessages, HintMessage, ParentOf, IsBlank;
  }

  lemma BoardFlags(s: State, e: Event, k: Key)
    requires e.BoardMessage?
    ensures var t := Step(s, e);
            t.missing == s.missing && (OnlyDiscovered(t, k) <==> OnlyDiscovered(s, k))
  {
    hide React, SyncMessages, ReplayMessage, DropRequest, DecodePermissionResponse;
    BoardReacts(s, e);
  }

  lemma OtherFlags(s: State, e: Event, k: Key)
    requires !e.RegisterAgent? && !e.DiscoverSessions? && !e.IngestTurns? && !e.BoardMessage? && !e.PruneMissing?
    ensures var t := Step(s, e);
            t.missing == s.missing && (OnlyDiscovered(t, k) ==> OnlyDiscovered(s, k))
  {
    hide StatusMessage, TokenMessage, PermissionMessage, LiveRender, Owner, FocusedOwner, Unsent, HasRequest,
         DropRequest, Register, Discover, Ingest, Board, Prune, IsBlank;
  }

  lemma PruneCounts(s: State, latest: set<Key>, k: Key)
    ensures var t := Prune(s, latest);
            var e := PruneMissing(latest);
            && t.agents.Keys <= s.agents.Keys
            && (k in t.agents ==> t.agents[k] == s.agents[k])
            && (k in s.agents ==>
                  (k !in t.agents <==> Misses(s, e, k) && k in s.missing && Min(s.missing[k] + 1, 255) >= 3))
            && (k in latest ==> k !in t.missing)
            && (k in t.agents && Misses(s, e, k) ==>
                  k in t.missing && t.missing[k] == if k in s.missing then Min(s.missing[k] + 1, 255) else 1)
            && (k !in latest && !Misses(s, e, k) ==>
                  Counter(t, k) == Counter(s, k) && (k in t.missing <==> k in s.missing))
  {
    hide WithoutAll;
  }

  /** What a step makes of the counter of an agent known from discovery only. */
  lemma CounterStep(s: State, e: Event, k: Key)
    requires OnlyDiscovered(Step(s, e), k)
    ensures var t := Step(s, e);
            && (!Sees(e, k) ==> OnlyDiscovered(s, k))
            && (if Sees(e, k) then k !in t.missing
                else if Misses(s, e, k) then
                  && k in t.missing && t.missing[k] == (if k in s.missing then Min(s.missing[k] + 1, 255) else 1)
                  && !(k in s.missing && Min(s.missing[k] + 1, 255) >= 3)
                else Counter(t, k) == Counter(s, k) && (k in t.missing <==> k in s.missing))
  {
    hide React, Register, Discover, Ingest, Board, Prune, Misses, Lists;
    match e
    case RegisterAgent(r) =>
      RegisterReacts(s, r);
      RegisterFlags(s, r, k);
      OnlyPrunesMiss(s, e, k);
    case DiscoverSessions(ds) => DiscoverCounterStep(s, e, k);
    case IngestTurns(ts) =>
      IngestReacts(s, ts);
      IngestFlags(s, ts, k);
      OnlyPrunesMiss(s, e, k);
    case BoardMessage(_, _, _) =>
      BoardFlags(s, e, k);
      OnlyPrunesMiss(s, e, k);
    case PruneMissing(latest) => PruneCounterStep(s, e, k);
    case _ =>
      OtherFlags(s, e, k);
      OnlyPrunesMiss(s, e, k);
  }

  lemma OnlyPrunesMiss(s: State, e: Event, k: Key)
    requires !e.PruneMissing?
    ensures !Misses(s, e, k)
  {
  }

  lemma IngestReacts(s: State, ts: seq<DiscoveredTurn>)
    ensures React(s, IngestTurns(ts)).next == Ingest(s, ts)
  {
    hide Ingest;
  }

  lemma DiscoverCounterStep(s: State, e: Event, k: Key)
    requires e.DiscoverSessions? && OnlyDiscovered(Step(s, e), k)
    ensures var t := Step(s, e);
            && !Misses(s, e, k)
            && (!Sees(e, k) ==> OnlyDiscovered(s, k))
            && (if Sees(e, k) then k !in t.missing
                else Counter(t, k) == Counter(s, k) && (k in t.missing <==> k in s.missing))
  {
    DiscoverRegisters(s, e.sessions, k);
    DiscoverCounter(s, e.sessions, k);
    hide Discover, Lists, Counter;
  }

  lemma PruneCounterStep(s: State, e: Event, k: Key)
    requires e.PruneMissing? && OnlyDiscovered(Step(s, e), k)
    ensures var t := Step(s, e);
            && OnlyDiscovered(s, k)
            && (if Sees(e, k) then k !in t.missing
                else if Misses(s, e, k) then
                  && k in t.missing && t.missing[k] == (if k in s.missing then Min(s.missing[k] + 1, 255) else 1)
                  && !(k in s.missing && Min(s.missing[k] + 1, 255) >= 3)
                else Counter(t, k) == Counter(s, k) && (k in t.missing <==> k in s.missing))
  {
    PruneCounts(s, e.latest, k);
    hide Prune, Misses;
  }

  // ---- whole runs

  /** The counter of an agent known from discovery only is the number of polls that missed it, at most two. */
  lemma {:induction false} CounterIsMissed(es: seq<Event>, k: Key)
    requires OnlyDiscovered(Run(INITIAL, es), k)
    ensures var s := Run(INITIAL, es);
            && MissedSince(es, k) <= 2 && Counter(s, k) == MissedSince(es, k)
            && (k in s.missing <==> MissedSince(es, k) > 0)
  {
    hide Step, Sees, Misses, OnlyDiscovered;
    if es == [] {
      NobodyAtFirst(k);
    } else {
      var init, e := es[..|es| - 1], es[|es| - 1];
      CounterStep(Run(INITIAL, init), e, k);
      if !Sees(e, k) {
        CounterIsMissed(init, k);
      }
    }
  }

  lemma NobodyAtFirst(k: Key)
    ensures !OnlyDiscovered(Run(INITIAL, []), k)
  {
  }

  /** Poll `i` missed the agent. */
  ghost predicate MissedAt(es: seq<Event>, i: nat, k: Key) {
    i < |es| && Misses(Run(INITIAL, es[..i]), es[i], k)
  }

  predicate UnseenSince(es: seq<Event>, i: nat, k: Key) {
    forall m :: i < m < |es| ==> !Sees(es[m], k)
  }

  /** An event appended to the run. */
  lemma MissedSnoc(es: seq<Event>, i: nat, k: Key)
    requires es != []
    ensures var init, e := es[..|es| - 1], es[|es| - 1];
            && (MissedAt(es, i, k) <==> if i == |init| then Misses(Run(INITIAL, init), e, k) else MissedAt(init, i, k))
            && (i < |init| ==> (UnseenSince(es, i, k) <==> UnseenSince(init, i, k) && !Sees(e, k)))
            && (i >= |init| ==> UnseenSince(es, i, k))
  {
    hide Misses, Sees, Run;
    var init := es[..|es| - 1];
    assert forall m :: 0 <= m < |init| ==> init[m] == es[m] && init[..m] == es[..m];
  }

  lemma {:induction false} MissedOnce(es: seq<Event>, k: Key)
    ensures MissedSince(es, k) >= 1 <==> exists i: nat :: MissedAt(es, i, k) && UnseenSince(es, i, k)
  {
    hide Misses, Sees, UnseenSince;
    if es == [] {
      return;
    }
    hide MissedAt;
    var init, e := es[..|es| - 1], es[|es| - 1];
    MissedOnce(init, k);
    forall i: nat { MissedSnoc(es, i, k); }
    MissedBefore(es, k);
    MissedBefore(init, k);
    MissedIsUnseen(Run(INITIAL, init), e, k);
    if Misses(Run(INITIAL, init), e, k) {
      assert MissedAt(es, |init|, k);
    }
    if !Sees(e, k) && MissedSince(init, k) >= 1 {
      var i: nat :| MissedAt(init, i, k) && UnseenSince(init, i, k);
      assert MissedAt(es, i, k);
    }
  }

  lemma MissedBefore(es: seq<Event>, k: Key)
    ensures forall i: nat :: MissedAt(es, i, k) ==> i < |es|
  {
  }

  lemma MissedIsUnseen(s: State, e: Event, k: Key)
    ensures Misses(s, e, k) ==> !Sees(e, k)
  {
  }

  lemma {:induction false} MissedTwice(es: seq<Event>, k: Key)
    ensures MissedSince(es, k) >= 2 <==>
              exists i: nat, j: nat :: i < j && MissedAt(es, i, k) && MissedAt(es, j, k) && UnseenSince(es, i, k)
  {
    hide Misses, Sees, UnseenSince;
    if es == [] {
      return;
    }
    hide MissedAt;
    var init, e := es[..|es| - 1], es[|es| - 1];
    MissedTwice(init, k);
    MissedOnce(init, k);
    forall i: nat { MissedSnoc(es, i, k); }
    MissedBefore(es, k);
    MissedBefore(init, k);
    MissedIsUnseen(Run(INITIAL, init), e, k);
    if !Sees(e, k) && Misses(Run(INITIAL, init), e, k) && MissedSince(init, k) >= 1 {
      var i: nat :| MissedAt(init, i, k) && UnseenSince(init, i, k);
      assert MissedAt(es, i, k) && MissedAt(es, |init|, k);
    }
    if !Sees(e, k) && MissedSince(init, k) >= 2 {
      var i: nat, j: nat :| i < j && MissedAt(init, i, k) && MissedAt(init, j, k) && UnseenSince(init, i, k);
      assert MissedAt(es, i, k) && MissedAt(es, j, k);
    }
  }

  /**
   * In every reachable state: a poll drops an agent exactly when it misses it,
   * bound and known from discovery only, for at least the third time since it was
   * last seen. Whatever counter an earlier agent of the same name left behind when
   * it was aborted does not matter: the discovery that brings a new one clears it.
   */
  lemma PollDropsIff(es: seq<Event>, latest: set<Key>, k: Key)
    requires k in Run(INITIAL, es).agents
    ensures var s := Run(INITIAL, es);
            k !in Step(s, PruneMissing(latest)).agents <==>
              && k !in latest && BoundOnlyDiscovered(s, k)
              && exists i: nat, j: nat ::
                   i < j && MissedAt(es, i, k) && MissedAt(es, j, k) && UnseenSince(es, i, k)
  {
    hide Run, Prune, Sees, UnseenSince, MissedAt, OnlyDiscovered;
    var s := Run(INITIAL, es);
    PruneCounts(s, latest, k);
    MissedTwice(es, k);
    if OnlyDiscovered(s, k) {
      CounterIsMissed(es, k);
    }
  }

  /** Nobody else is touched by a poll. */
  lemma PollKeepsOthers(s: State, latest: set<Key>)
    requires Inv(s)
    ensures var t := Step(s, PruneMissing(latest));
            && t.pending == s.pending && t.outbox == s.outbox && t.focused == s.focused
            && t.agents.Keys <= s.agents.Keys && forall k :: k in t.agents ==> t.agents[k] == s.agents[k]
  {
    WithoutAllAbsent(s.pending, Dropped(s, latest));
  }
}

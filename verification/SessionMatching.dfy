/**
 * First-in first-out matching of board replies to session requests over whole
 * runs. The ledger numbers the requests in the order they were issued and
 * records, for every board reply, which request it was used for.
 */
module SessionMatching {
  import opened Wrappers
  import opened Sequences
  import opened Utf8
  import opened Codec
  import opened Payloads
  import opened DaemonModel
  import opened DaemonInvariant

  datatype Ledger = Ledger(
    issued: seq<Key>,           // request number -> agent that issued it
    waiting: seq<nat>,          // request numbers of the pending queue
    bound: seq<nat>,            // request numbers answered, in answer order
    dropped: set<nat>,          // request numbers whose agent was aborted first
    replies: seq<Option<nat>>)  // per board reply: the request it answered, if any

  const NO_REQUESTS: Ledger := Ledger([], [], [], {}, [])

  function Numbers(from: nat, count: nat): (ns: seq<nat>)
    ensures |ns| == count
    ensures forall i :: 0 <= i < count ==> ns[i] == from + i
  {
    seq(count, i requires 0 <= i => from + i)
  }

  predicate IsReply(e: Event) {
    e.BoardMessage? && e.cmd == Cmd.SessionResponse
  }

  predicate IsGrant(s: State, e: Event) {
    IsReply(e) && GrantsSession(e.sid, e.payload) && s.pending != []
  }

  /** An abort of an agent whose request is still unanswered. */
  predicate AbortsPending(s: State, e: Event) {
    e.AbortSession? && !e.key.kind.Unknown? && e.key in s.agents && e.key in s.pending
  }

  /** The agents a step issues a session request for: the growth of the queue. */
  ghost function NewRequests(s: State, e: Event): seq<Key> {
    var after := Step(s, e).pending;
    if (e.RegisterAgent? || e.DiscoverSessions?) && |s.pending| <= |after| then after[|s.pending|..] else []
  }

  function IndexOf(keys: seq<Key>, k: Key): (i: nat)
    requires k in keys
    ensures i < |keys| && keys[i] == k
  {
    if keys[0] == k then 0 else 1 + IndexOf(keys[1..], k)
  }

  ghost function Book(l: Ledger, s: State, e: Event): Ledger
    requires |l.waiting| == |s.pending|
  {
    if IsGrant(s, e) then
      l.(waiting := l.waiting[1..], bound := l.bound + [l.waiting[0]], replies := l.replies + [Some(l.waiting[0])])
    else if IsReply(e) then l.(replies := l.replies + [None])
    else if AbortsPending(s, e) then
      var i := IndexOf(s.pending, e.key);
      l.(waiting := l.waiting[..i] + l.waiting[i + 1..], dropped := l.dropped + {l.waiting[i]})
    else
      var new_ := NewRequests(s, e);
      l.(issued := l.issued + new_, waiting := l.waiting + Numbers(|l.issued|, |new_|))
  }

  ghost predicate Increasing(ns: seq<nat>) {
    forall i, j :: 0 <= i < j < |ns| ==> ns[i] < ns[j]
  }

  /** Answered and waiting requests, in this order, are the undropped ones in issue order. */
  ghost predicate Balanced(l: Ledger, s: State) {
    var live := l.bound + l.waiting;
    && |l.waiting| == |s.pending|
    && (forall i :: 0 <= i < |l.waiting| ==> l.waiting[i] < |l.issued| && l.issued[l.waiting[i]] == s.pending[i])
    && Increasing(live)
    && (forall n: nat :: n in live ==> n < |l.issued| && n !in l.dropped)
    && (forall n: nat :: n in l.dropped ==> n < |l.issued|)
    && (forall n: nat :: n < |l.issued| && n !in l.dropped ==> n in live)
    && (forall r: nat :: Some(r) in l.replies ==> r in l.bound)
  }

  // ---- how one step changes the queue

  lemma {:induction false} DiscoverAppends(s: State, ds: seq<Discovered>)
    ensures s.pending <= Discover(s, ds).pending
  {
    if ds != [] {
      DiscoverAppends(s, ds[..|ds| - 1]);
    }
  }

  lemma {:induction false} WithoutIsRemoval(keys: seq<Key>, k: Key)
    requires NoDuplicates(keys) && k in keys
    ensures var i := IndexOf(keys, k); Without(keys, k) == keys[..i] + keys[i + 1..]
  {
    var rest := keys[1..];
    if keys[0] == k {
      assert k !in rest;
      WithoutAbsent(rest, k);
    } else {
      WithoutIsRemoval(rest, k);
      var i := IndexOf(rest, k);
      assert keys[..i + 1] == [keys[0]] + rest[..i];
      assert keys[i + 2..] == rest[i + 1..];
    }
  }

  lemma {:induction false} IngestKeepsQueue(s: State, ts: seq<DiscoveredTurn>)
    ensures Ingest(s, ts).pending == s.pending
  {
    if ts != [] {
      IngestKeepsQueue(s, ts[..|ts| - 1]);
    }
  }

  lemma RegisterChangesQueue(s: State, e: Event)
    requires e.RegisterAgent?
    ensures Step(s, e).pending == s.pending + NewRequests(s, e)
  {
    var r := e.registration;
    var k := Key(r.kind, r.id);
    var after := Register(s, r).next.pending;
    assert after == s.pending || after == s.pending + [k];
  }

  lemma BoardChangesQueue(s: State, e: Event)
    requires Inv(s) && e.BoardMessage?
    ensures IsGrant(s, e) ==> Step(s, e).pending == s.pending[1..]
    ensures !IsGrant(s, e) ==> Step(s, e).pending == s.pending
  {
    hide React, Inv;
    BoardReacts(s, e);
    if IsGrant(s, e) {
      GrantFindsItsAgent(s, e.sid, e.payload);
    }
  }

  lemma QuietEventsKeepQueue(s: State, e: Event)
    requires e.ReportActivity? || e.UpdateTokens? || e.AppendTurn? || e.RequestPermission? || e.ResolvePermission?
             || e.PollPermission? || e.StreamTerminal? || e.Heartbeat? || e.Flush?
    ensures Step(s, e).pending == s.pending
  {
  }

  lemma DiscoverChangesQueue(s: State, e: Event)
    requires e.DiscoverSessions?
    ensures Step(s, e).pending == s.pending + NewRequests(s, e)
  {
    DiscoverAppends(s, e.sessions);
    hide Discover;
  }

  lemma IngestAndPruneKeepQueue(s: State, e: Event)
    requires PendingSound(s) && (e.IngestTurns? || e.PruneMissing?)
    ensures Step(s, e).pending == s.pending
  {
    if e.IngestTurns? {
      IngestKeepsQueue(s, e.turns);
    } else {
      WithoutAllAbsent(s.pending, Dropped(s, e.latest));
    }
    hide Ingest, WithoutAll;
  }

  lemma AbortChangesQueue(s: State, e: Event)
    requires PendingSound(s) && e.AbortSession?
    ensures Step(s, e).pending == if AbortsPending(s, e) then Without(s.pending, e.key) else s.pending
  {
    if e.key !in s.pending {
      WithoutAbsent(s.pending, e.key);
    }
    hide Without;
  }

  /** The queue changes only by a grant, an abort of a pending agent, or new requests. */
  lemma QueueChange(s: State, e: Event)
    requires Inv(s)
    ensures IsGrant(s, e) ==> Step(s, e).pending == s.pending[1..]
    ensures AbortsPending(s, e) ==> Step(s, e).pending == Without(s.pending, e.key)
    ensures !IsGrant(s, e) && !AbortsPending(s, e) ==> Step(s, e).pending == s.pending + NewRequests(s, e)
    ensures IsReply(e) ==> NewRequests(s, e) == []
  {
    hide Step, PendingSound, SidsUnique, AgentSound, Without;
    match e
    case RegisterAgent(_) => RegisterChangesQueue(s, e);
    case DiscoverSessions(_) => DiscoverChangesQueue(s, e);
    case IngestTurns(_) => IngestAndPruneKeepQueue(s, e);
    case PruneMissing(_) => IngestAndPruneKeepQueue(s, e);
    case AbortSession(_) => AbortChangesQueue(s, e);
    case BoardMessage(_, _, _) => BoardChangesQueue(s, e);
    case _ => QuietEventsKeepQueue(s, e);
  }

  // ---- one step of the ledger

  lemma AnswerBalanced(l: Ledger, s: State, t: State)
    requires Balanced(l, s) && s.pending != [] && t.pending == s.pending[1..]
    ensures Balanced(l.(waiting := l.waiting[1..], bound := l.bound + [l.waiting[0]],
                        replies := l.replies + [Some(l.waiting[0])]), t)
  {
    var first := l.waiting[0];
    var bound := l.bound + [first];
    assert bound + l.waiting[1..] == l.bound + l.waiting;
    forall r: nat | Some(r) in l.replies + [Some(first)] ensures r in bound {
      if Some(r) !in l.replies {
        assert bound[|l.bound|] == r;
      }
    }
  }

  lemma GrantBalanced(l: Ledger, s: State, e: Event)
    requires Inv(s) && Balanced(l, s) && IsGrant(s, e)
    ensures Balanced(Book(l, s, e), Step(s, e))
  {
    QueueChange(s, e);
    hide Step, Inv, NewRequests;
    AnswerBalanced(l, s, Step(s, e));
  }

  /** Taking one number out of an increasing list. */
  lemma CutOne(live: seq<nat>, cut: nat)
    requires Increasing(live) && cut < |live|
    ensures var left := live[..cut] + live[cut + 1..];
            && Increasing(left)
            && forall n: nat :: n in left <==> n in live && n != live[cut]
  {
    var left := live[..cut] + live[cut + 1..];
    forall n: nat | n in left ensures n in live && n != live[cut] {
      var j :| 0 <= j < |left| && left[j] == n;
      assert left[j] == live[if j < cut then j else j + 1];
    }
    forall n: nat | n in live && n != live[cut] ensures n in left {
      var j :| 0 <= j < |live| && live[j] == n;
      assert n == left[if j < cut then j else j - 1];
    }
  }

  lemma AbortBalanced(l: Ledger, s: State, e: Event)
    requires Inv(s) && Balanced(l, s) && AbortsPending(s, e)
    ensures Balanced(Book(l, s, e), Step(s, e))
  {
    hide Step, SidsUnique, AgentSound, NewRequests, Without, IndexOf, Balanced, NoDuplicates;
    assert |l.waiting| == |s.pending| by {
      BalancedCounts(l, s);
    }
    AbortChangesQueue(s, e);
    WithoutIsRemoval(s.pending, e.key);
    DropBalanced(l, s, IndexOf(s.pending, e.key), Step(s, e));
  }

  lemma BalancedCounts(l: Ledger, s: State)
    requires Balanced(l, s)
    ensures |l.waiting| == |s.pending|
  {
  }

  lemma DropBalanced(l: Ledger, s: State, i: nat, t: State)
    requires Balanced(l, s) && i < |s.pending|
    requires t.pending == s.pending[..i] + s.pending[i + 1..]
    ensures Balanced(l.(waiting := l.waiting[..i] + l.waiting[i + 1..], dropped := l.dropped + {l.waiting[i]}), t)
  {
    var live := l.bound + l.waiting;
    var cut := |l.bound| + i;
    assert live[cut] == l.waiting[i] && live[cut] in live;
    assert l.bound + (l.waiting[..i] + l.waiting[i + 1..]) == live[..cut] + live[cut + 1..];
    CutOne(live, cut);
  }

  /** Appending the next `count` numbers to an increasing list of smaller ones. */
  lemma GrowNumbers(live: seq<nat>, from: nat, count: nat)
    requires Increasing(live) && forall n: nat :: n in live ==> n < from
    ensures var grown := live + Numbers(from, count);
            && Increasing(grown)
            && forall n: nat :: n in grown <==> n in live || from <= n < from + count
  {
    var added := Numbers(from, count);
    var grown := live + added;
    forall i | 0 <= i < |live| ensures live[i] < from {
      assert live[i] in live;
    }
    forall n: nat ensures n in grown <==> n in live || from <= n < from + count {
      if from <= n < from + count {
        assert added[n - from] == n;
      }
      if n in grown && n !in live {
        var j :| 0 <= j < |added| && added[j] == n;
      }
    }
  }

  lemma IssueBalanced(l: Ledger, s: State, new_: seq<Key>, t: State)
    requires Balanced(l, s) && t.pending == s.pending + new_
    ensures Balanced(l.(issued := l.issued + new_, waiting := l.waiting + Numbers(|l.issued|, |new_|)), t)
  {
    var live, added := l.bound + l.waiting, Numbers(|l.issued|, |new_|);
    GrowNumbers(live, |l.issued|, |new_|);
    assert l.bound + (l.waiting + added) == live + added;
  }

  lemma OtherBalanced(l: Ledger, s: State, e: Event)
    requires Inv(s) && Balanced(l, s) && !IsReply(e) && !AbortsPending(s, e)
    ensures Balanced(Book(l, s, e), Step(s, e))
  {
    QueueChange(s, e);
    hide Step, Inv, NewRequests, Balanced;
    IssueBalanced(l, s, NewRequests(s, e), Step(s, e));
  }

  lemma BookBalanced(l: Ledger, s: State, e: Event)
    requires Inv(s) && Balanced(l, s)
    ensures Balanced(Book(l, s, e), Step(s, e))
  {
    if IsGrant(s, e) {
      GrantBalanced(l, s, e);
    } else if AbortsPending(s, e) {
      AbortBalanced(l, s, e);
    } else if IsReply(e) {
      QueueChange(s, e);
    } else {
      OtherBalanced(l, s, e);
    }
  }

  // ---- whole runs

  ghost function Books(es: seq<Event>): Ledger
    ensures Balanced(Books(es), Run(INITIAL, es))
  {
    if es == [] then NO_REQUESTS
    else
      var init, e := es[..|es| - 1], es[|es| - 1];
      RunKeepsInv(INITIAL, init);
      BookBalanced(Books(init), Run(INITIAL, init), e);
      Book(Books(init), Run(INITIAL, init), e)
  }

  lemma BooksBalanced(es: seq<Event>)
    ensures var l := Books(es);
            && |l.waiting| == |Run(INITIAL, es).pending|
            && forall i :: 0 <= i < |l.waiting| ==>
                 l.waiting[i] < |l.issued| && l.issued[l.waiting[i]] == Run(INITIAL, es).pending[i]
  {
  }

  lemma GrantStep(s: State, e: Event)
    requires IsGrant(s, e)
    ensures Step(s, e) == HandleSessionResponse(s, e.sid, e.payload).next
  {
  }

  /** A granted reply gives its sid to the agent that issued the request it is booked on. */
  lemma GrantBindsTheBookedAgent(es: seq<Event>, e: Event)
    requires IsGrant(Run(INITIAL, es), e)
    ensures var l := Books(es + [e]);
            && l.bound != [] && l.bound[|l.bound| - 1] < |l.issued|
            && forall k :: Owns(Run(INITIAL, es + [e]), k, e.sid) <==> k == l.issued[l.bound[|l.bound| - 1]]
  {
    hide Step, Inv, NewRequests, Balanced;
    assert (es + [e])[..|es|] == es;
    InitialInv();
    RunKeepsInv(INITIAL, es);
    BooksBalanced(es);
    GrantStep(Run(INITIAL, es), e);
    GrantFindsItsAgent(Run(INITIAL, es), e.sid, e.payload);
  }

  lemma {:induction false} IncreasingIsAtLeast(ns: seq<nat>, i: nat)
    requires Increasing(ns) && i < |ns|
    ensures i <= ns[i]
  {
    if i > 0 {
      IncreasingIsAtLeast(ns, i - 1);
    }
  }

  /** Where an increasing list first leaves the identity, it skips that number for good. */
  lemma {:induction false} IncreasingSkips(ns: seq<nat>, i: nat)
    requires Increasing(ns) && i < |ns| && ns[i] != i
    ensures exists d: nat :: d <= i && d !in ns
  {
    IncreasingIsAtLeast(ns, i);
    if i > 0 && ns[i - 1] != i - 1 {
      IncreasingSkips(ns, i - 1);
    } else {
      forall j | 0 <= j < |ns| ensures ns[j] != i {
        if j < i - 1 {
          assert ns[j] < ns[i - 1];
        }
      }
      assert i !in ns;
    }
  }

  lemma BoundIsLive(l: Ledger, d: nat)
    requires d < |l.bound|
    ensures l.bound[d] in l.bound + l.waiting
  {
    assert (l.bound + l.waiting)[d] == l.bound[d];
  }

  /**
   * The n-th granted reply answers the n-th request, for every n so far, exactly
   * when none of those requests was dropped by an abort.
   */
  lemma GrantsFollowRequestsIff(es: seq<Event>)
    ensures var l := Books(es);
            (forall n :: 0 <= n < |l.bound| ==> l.bound[n] == n)
            <==> (forall d: nat :: d in l.dropped ==> |l.bound| <= d)
  {
    var l := Books(es);
    var live := l.bound + l.waiting;
    if forall d: nat :: d in l.dropped ==> |l.bound| <= d {
      forall n | 0 <= n < |l.bound| ensures l.bound[n] == n {
        assert live[n] == l.bound[n];
        if live[n] != n {
          IncreasingSkips(live, n);
          var d: nat :| d <= n && d !in live;
          assert live[n] in live && live[n] < |l.issued|;
          IncreasingIsAtLeast(live, n);
          assert false;
        }
      }
    }
    if forall n :: 0 <= n < |l.bound| ==> l.bound[n] == n {
      forall d: nat | d in l.dropped ensures |l.bound| <= d {
        if d < |l.bound| {
          BoundIsLive(l, d);
          assert false;
        }
      }
    }
  }

  /** No agent with an unanswered request is aborted. */
  ghost predicate NoPendingAbort(es: seq<Event>) {
    forall i :: 0 <= i < |es| ==> !AbortsPending(Run(INITIAL, es[..i]), es[i])
  }

  lemma {:induction false} NothingDropped(es: seq<Event>)
    requires NoPendingAbort(es)
    ensures Books(es).dropped == {}
  {
    if es != [] {
      var init := es[..|es| - 1];
      forall i | 0 <= i < |init| ensures !AbortsPending(Run(INITIAL, init[..i]), init[i]) {
        assert init[..i] == es[..i];
      }
      NothingDropped(init);
    }
  }

  /**
   * Every board reply is a grant and answers an outstanding request: the board
   * neither rejects nor replies unasked.
   */
  ghost predicate BoardGrantsAll(es: seq<Event>) {
    forall i :: 0 <= i < |es| && IsReply(es[i]) ==> IsGrant(Run(INITIAL, es[..i]), es[i])
  }

  lemma BookReply(l: Ledger, s: State, e: Event)
    requires |l.waiting| == |s.pending|
    ensures var m := Book(l, s, e);
            && (!IsReply(e) ==> m.replies == l.replies && m.bound == l.bound)
            && (IsReply(e) && !IsGrant(s, e) ==> m.replies == l.replies + [None] && m.bound == l.bound)
            && (IsGrant(s, e) ==> m.replies == l.replies + [Some(l.waiting[0])] && m.bound == l.bound + [l.waiting[0]])
  {
  }

  lemma GrantsAllSnoc(es: seq<Event>)
    requires es != []
    ensures var init, e := es[..|es| - 1], es[|es| - 1];
            BoardGrantsAll(es) <==> BoardGrantsAll(init) && (IsReply(e) ==> IsGrant(Run(INITIAL, init), e))
  {
    var init := es[..|es| - 1];
    assert forall i :: 0 <= i < |init| ==> init[..i] == es[..i] && init[i] == es[i];
  }

  lemma {:induction false} RepliesAreGrants(es: seq<Event>)
    ensures |Books(es).bound| <= |Books(es).replies|
    ensures BoardGrantsAll(es) <==> None !in Books(es).replies
    ensures None !in Books(es).replies ==>
      && |Books(es).bound| == |Books(es).replies|
      && forall n :: 0 <= n < |Books(es).bound| ==> Books(es).replies[n] == Some(Books(es).bound[n])
  {
    if es != [] {
      var init, e := es[..|es| - 1], es[|es| - 1];
      RepliesAreGrants(init);
      GrantsAllSnoc(es);
      BookReply(Books(init), Run(INITIAL, init), e);
    }
  }

  /**
   * However registrations, rebinds, prunes and invalidations interleave: the n-th
   * board reply is used for the n-th request, for every n, exactly when every
   * reply was a grant and no request among them was dropped by an abort.
   */
  lemma RepliesMatchRequestsIff(es: seq<Event>)
    ensures var l := Books(es);
            (forall n :: 0 <= n < |l.replies| ==> l.replies[n] == Some(n))
            <==> BoardGrantsAll(es) && forall d: nat :: d in l.dropped ==> |l.replies| <= d
  {
    var l := Books(es);
    RepliesAreGrants(es);
    GrantsFollowRequestsIff(es);
    if forall n :: 0 <= n < |l.replies| ==> l.replies[n] == Some(n) {
      assert None !in l.replies;
      forall n | 0 <= n < |l.bound| ensures l.bound[n] == n {
        assert l.replies[n] == Some(l.bound[n]);
      }
    }
    if BoardGrantsAll(es) && forall d: nat :: d in l.dropped ==> |l.replies| <= d {
      forall n | 0 <= n < |l.replies| ensures l.replies[n] == Some(n) {
        assert l.bound[n] == n;
      }
    }
  }

  /** In particular, without aborts of pending agents the matching is exact. */
  lemma RepliesMatchRequests(es: seq<Event>)
    requires NoPendingAbort(es) && BoardGrantsAll(es)
    ensures forall n :: 0 <= n < |Books(es).replies| ==> Books(es).replies[n] == Some(n)
  {
    NothingDropped(es);
    RepliesMatchRequestsIff(es);
  }

  // ---- the ledger's requests are the messages the daemon sends

  function SessionRequests(ms: seq<Msg>): seq<Msg> {
    if ms == [] then []
    else (if ms[0].cmd == Cmd.RequestSession then [ms[0]] else []) + SessionRequests(ms[1..])
  }

  lemma {:induction false} SessionRequestsAppend(a: seq<Msg>, b: seq<Msg>)
    ensures SessionRequests(a + b) == SessionRequests(a) + SessionRequests(b)
  {
    if a == [] {
      assert a + b == b;
    } else {
      SessionRequestsAppend(a[1..], b);
      assert (a + b)[0] == a[0] && (a + b)[1..] == a[1..] + b;
      var head := if a[0].cmd == Cmd.RequestSession then [a[0]] else [];
      assert head + (SessionRequests(a[1..]) + SessionRequests(b)) ==
        head + SessionRequests(a[1..]) + SessionRequests(b);
    }
  }

  ghost function Hints(s: State, keys: seq<Key>): seq<Msg>
    requires forall k :: k in keys ==> k in s.agents
  {
    seq(|keys|, i requires 0 <= i < |keys| => HintMessage(s.agents[keys[i]]))
  }

  ghost predicate Asked(s: State, t: State) {
    && s.pending <= t.pending && s.outbox <= t.outbox
    && (forall k :: k in t.pending ==> k in t.agents)
    && t.outbox[|s.outbox|..] == Hints(t, t.pending[|s.pending|..])
  }

  lemma DiscoverOneAsks(s: State, t: State, d: Discovered)
    requires Inv(t) && Asked(s, t)
    ensures Asked(s, DiscoverOne(t, d))
  {
    var u := DiscoverOne(t, d);
    var k := Key(d.kind, d.id);
    if k !in t.agents {
      assert k !in t.pending;
      assert u.pending[|s.pending|..] == t.pending[|s.pending|..] + [k];
      assert u.outbox[|s.outbox|..] == t.outbox[|s.outbox|..] + [HintMessage(DiscoveredAgent(d))];
      assert forall j :: j in t.pending ==> u.agents[j] == t.agents[j];
    }
  }

  /** Discovery asks the board once per new agent, in order, with that agent's hint. */
  lemma {:induction false} DiscoverAsks(s: State, ds: seq<Discovered>)
    requires Inv(s)
    ensures Asked(s, Discover(s, ds))
  {
    if ds == [] {
      NothingAsked(s);
    } else {
      DiscoverAsks(s, ds[..|ds| - 1]);
      DiscoverKeepsInv(s, ds[..|ds| - 1]);
      hide Inv, Asked, DiscoverOne;
      DiscoverOneAsks(s, Discover(s, ds[..|ds| - 1]), ds[|ds| - 1]);
    }
  }

  lemma NothingAsked(s: State)
    requires Inv(s)
    ensures Asked(s, s)
  {
  }

  lemma {:induction false} OnlyRequests(ms: seq<Msg>)
    requires forall i :: 0 <= i < |ms| ==> ms[i].cmd == Cmd.RequestSession
    ensures SessionRequests(ms) == ms
  {
    if ms != [] {
      OnlyRequests(ms[1..]);
    }
  }

  lemma {:induction false} NoRequests(ms: seq<Msg>)
    requires forall i :: 0 <= i < |ms| ==> ms[i].cmd != Cmd.RequestSession
    ensures SessionRequests(ms) == []
  {
    if ms != [] {
      NoRequests(ms[1..]);
    }
  }

  /** A step enqueues one REQUEST_SESSION per request it books, with the issuer's hint. */
  lemma StepAsks(s: State, e: Event)
    requires Inv(s) && Legal(s, e)
    ensures forall k :: k in NewRequests(s, e) ==> k in Step(s, e).agents
    ensures SessionRequests(Enqueued(s, e)) == Hints(Step(s, e), NewRequests(s, e))
    ensures |SessionRequests(Enqueued(s, e))| == |NewRequests(s, e)|
  {
    hide Step, Enqueued, NewRequests, Inv;
    StepUses(s, e);
    if e.RegisterAgent? {
      OnlyRequests(Enqueued(s, e));
      RegisterAsks(s, e);
    } else if e.DiscoverSessions? {
      OnlyRequests(Enqueued(s, e));
      DiscoveryAsks(s, e);
    } else {
      OtherEventsAskNothing(s, e);
      NoRequests(Enqueued(s, e));
    }
  }

  lemma OtherEventsAskNothing(s: State, e: Event)
    requires !e.RegisterAgent? && !e.DiscoverSessions?
    ensures NewRequests(s, e) == []
  {
  }

  lemma DiscoveryAsks(s: State, e: Event)
    requires Inv(s) && e.DiscoverSessions?
    ensures forall k :: k in NewRequests(s, e) ==> k in Step(s, e).agents
    ensures Enqueued(s, e) == Hints(Step(s, e), NewRequests(s, e))
  {
    hide Discover, Hints, Inv;
    DiscoverAsks(s, e.sessions);
  }

  lemma RegisterAsks(s: State, e: Event)
    requires Inv(s) && e.RegisterAgent?
    ensures forall k :: k in NewRequests(s, e) ==> k in Step(s, e).agents
    ensures Enqueued(s, e) == Hints(Step(s, e), NewRequests(s, e))
  {
    hide HintMessage, SyncMessages, SidsUnique;
    var k := Key(e.registration.kind, e.registration.id);
    var t := Step(s, e);
    assert (t.pending == s.pending && t.outbox == s.outbox)
        || (t.pending == s.pending + [k] && t.outbox == s.outbox + [HintMessage(t.agents[k])]);
  }

  /**
   * A request names its agent: by its name, or its id when it has none, cut after 24
   * bytes; the board can read it exactly when the cut splits no character.
   */
  lemma HintNamesAgent(a: Agent)
    ensures var m := HintMessage(a);
            var text := if a.name == "" then a.id else a.name;
            && m.cmd == Cmd.RequestSession && m.sid == 0 && m.payload <= Encode(text)
            && |m.payload| == Min(|Encode(text)|, 24)
            && (Decode(m.payload).Some? <==> CutsCleanly(text, 24))
            && (Decode(m.payload).Some? ==> Decode(m.payload) == Some(text[..FittingChars(text, 24)]))
  {
    CutText(if a.name == "" then a.id else a.name, 24);
    hide Encode, Decode, CutsCleanly;
  }

  lemma BookIssues(l: Ledger, s: State, e: Event)
    requires |l.waiting| == |s.pending|
    ensures (IsReply(e) || AbortsPending(s, e)) ==> NewRequests(s, e) == []
    ensures Book(l, s, e).issued == l.issued + NewRequests(s, e)
  {
    if IsReply(e) || AbortsPending(s, e) {
      AbortAsksNothing(s, e);
    }
  }

  /** The REQUEST_SESSION messages of a run, in order. */
  ghost function Requests(es: seq<Event>): seq<Msg> {
    SessionRequests(Log(INITIAL, es))
  }

  /** The `n`-th REQUEST_SESSION message of the run was sent by step `i`, with the hint of agent `k` then. */
  ghost predicate Asks(es: seq<Event>, i: nat, n: nat, k: Key) {
    && i < |es| && n < |Requests(es)|
    && |Requests(es[..i])| <= n < |Requests(es[..i + 1])|
    && k in Run(INITIAL, es[..i + 1]).agents
    && Requests(es)[n] == HintMessage(Run(INITIAL, es[..i + 1]).agents[k])
  }

  /** Which requests one more step books and sends. */
  lemma RequestsSnoc(es: seq<Event>)
    requires LegalRun(INITIAL, es) && es != []
    ensures var init, e := es[..|es| - 1], es[|es| - 1];
            var s := Run(INITIAL, init);
            var t := Step(s, e);
            && LegalRun(INITIAL, init)
            && Books(es).issued == Books(init).issued + NewRequests(s, e)
            && (forall k :: k in NewRequests(s, e) ==> k in t.agents)
            && Requests(es) == Requests(init) + Hints(t, NewRequests(s, e))
            && |Requests(es)| == |Requests(init)| + |NewRequests(s, e)|
  {
    hide Step, Enqueued, NewRequests, Inv, Legal, LegalRun, Book, Balanced;
    var init, e := es[..|es| - 1], es[|es| - 1];
    var s := Run(INITIAL, init);
    InitialInv();
    LegalPrefix(INITIAL, es);
    RunKeepsInv(INITIAL, init);
    StepAsks(s, e);
    SessionRequestsAppend(Log(INITIAL, init), Enqueued(s, e));
    BalancedBooks(init);
    BookIssues(Books(init), s, e);
  }

  lemma AsksOn(es: seq<Event>, i: nat, n: nat, k: Key)
    requires es != [] && Asks(es[..|es| - 1], i, n, k) && Requests(es[..|es| - 1]) <= Requests(es)
    ensures Asks(es, i, n, k)
  {
    hide Requests, Run;
    var init := es[..|es| - 1];
    assert init[..i] == es[..i] && init[..i + 1] == es[..i + 1];
  }

  ghost predicate IsAsked(es: seq<Event>, n: nat)
    requires n < |Books(es).issued|
  {
    exists i :: Asks(es, i, n, Books(es).issued[n])
  }

  /** The messages are the requests booked, in order, each with the hint of its agent when it was sent. */
  ghost predicate AskedInOrder(es: seq<Event>) {
    && |Requests(es)| == |Books(es).issued|
    && forall n :: 0 <= n < |Books(es).issued| ==> IsAsked(es, n)
  }

  /** Over a whole run, the daemon asks the board once for each request it books. */
  lemma {:induction false} RunAsksOncePerRequest(es: seq<Event>)
    requires LegalRun(INITIAL, es)
    ensures AskedInOrder(es)
  {
    hide AskedInOrder, Step, NewRequests, LegalRun, Books, Requests;
    if es == [] {
      NothingAskedYet();
    } else {
      RequestsSnoc(es);
      RunAsksOncePerRequest(es[..|es| - 1]);
      AskedInOrderSnoc(es);
    }
  }

  lemma NothingAskedYet()
    ensures AskedInOrder([])
  {
  }

  lemma AskedInOrderSnoc(es: seq<Event>)
    requires LegalRun(INITIAL, es) && es != [] && AskedInOrder(es[..|es| - 1])
    ensures AskedInOrder(es)
  {
    hide Step, NewRequests, LegalRun, IsAsked, Book, Requests, Balanced, Inv;
    RequestsSnoc(es);
    forall n | 0 <= n < |Books(es).issued| ensures IsAsked(es, n) {
      AskedBy(es, n);
    }
  }

  lemma AskedBy(es: seq<Event>, n: nat)
    requires LegalRun(INITIAL, es) && es != [] && AskedInOrder(es[..|es| - 1]) && n < |Books(es).issued|
    ensures IsAsked(es, n)
  {
    hide Step, NewRequests, LegalRun, Asks, Book, Balanced, Inv, Requests;
    var init := es[..|es| - 1];
    RequestsSnoc(es);
    if n < |Books(init).issued| {
      assert IsAsked(init, n);
      var i :| Asks(init, i, n, Books(init).issued[n]);
      assert Books(init).issued[n] == Books(es).issued[n];
      AsksOn(es, i, n, Books(es).issued[n]);
    } else {
      AsksNow(es, n);
    }
  }

  lemma AsksNow(es: seq<Event>, n: nat)
    requires LegalRun(INITIAL, es) && es != []
    requires |Requests(es[..|es| - 1])| == |Books(es[..|es| - 1]).issued| <= n < |Books(es).issued|
    ensures Asks(es, |es| - 1, n, Books(es).issued[n])
  {
    hide NewRequests, LegalRun, Books, Requests, Step;
    RequestsSnoc(es);
    assert es[..|es|] == es;
    StepRun(es);
  }

  lemma StepRun(es: seq<Event>)
    requires es != []
    ensures Run(INITIAL, es) == Step(Run(INITIAL, es[..|es| - 1]), es[|es| - 1])
  {
  }

  /**
   * A granted reply gives its sid to the agent whose hint some earlier
   * REQUEST_SESSION message carried, and is booked on that message's number.
   */
  lemma GrantAnswersItsMessage(es: seq<Event>, e: Event) returns (n: nat, i: nat)
    requires LegalRun(INITIAL, es) && IsGrant(Run(INITIAL, es), e)
    ensures var l := Books(es + [e]);
            && l.replies == Books(es).replies + [Some(n)]
            && n < |l.issued| && Asks(es, i, n, l.issued[n])
            && forall k :: Owns(Run(INITIAL, es + [e]), k, e.sid) <==> k == l.issued[n]
    ensures NoPendingAbort(es) && BoardGrantsAll(es) ==> n == |Books(es).replies|
  {
    hide Step, Inv, NewRequests, Balanced, Asks, Owns, LegalRun;
    var l := Books(es);
    var s := Run(INITIAL, es);
    BooksBalanced(es);
    GrantBindsTheBookedAgent(es, e);
    BooksSnoc(es, e);
    BookReply(l, s, e);
    BookIssues(l, s, e);
    n := l.waiting[0];
    RunAsksOncePerRequest(es);
    assert IsAsked(es, n);
    i :| Asks(es, i, n, l.issued[n]);
    if NoPendingAbort(es) && BoardGrantsAll(es) {
      NoAbortsSnoc(es, e);
      RepliesMatchRequests(es + [e]);
      assert Books(es + [e]).replies[|l.replies|] == Some(n);
    }
  }

  lemma BooksSnoc(es: seq<Event>, e: Event)
    ensures |Books(es).waiting| == |Run(INITIAL, es).pending|
    ensures Books(es + [e]) == Book(Books(es), Run(INITIAL, es), e)
    ensures Run(INITIAL, es + [e]) == Step(Run(INITIAL, es), e)
  {
    hide Step, Book;
    BalancedBooks(es);
    assert (es + [e])[..|es|] == es;
  }

  lemma NoAbortsSnoc(es: seq<Event>, e: Event)
    requires NoPendingAbort(es) && BoardGrantsAll(es) && IsGrant(Run(INITIAL, es), e)
    ensures NoPendingAbort(es + [e]) && BoardGrantsAll(es + [e])
  {
    hide Run;
    var all := es + [e];
    assert all[..|es|] == es;
    forall j | 0 <= j < |all|
      ensures !AbortsPending(Run(INITIAL, all[..j]), all[j])
      ensures IsReply(all[j]) ==> IsGrant(Run(INITIAL, all[..j]), all[j])
    {
      if j < |es| {
        assert all[..j] == es[..j] && all[j] == es[j];
      }
    }
  }

  lemma BalancedBooks(es: seq<Event>)
    ensures |Books(es).waiting| == |Run(INITIAL, es).pending|
  {
  }

  lemma AbortAsksNothing(s: State, e: Event)
    requires IsReply(e) || AbortsPending(s, e)
    ensures NewRequests(s, e) == []
  {
  }

  // ---- a run in which a reply is used for a later request

  const FIRST_AGENT: Registration := Registration(Claude, "a", "", "", Running, None, None, false)
  const SECOND_AGENT: Registration := Registration(Claude, "b", "", "", Running, None, None, false)

  lemma RegisterBooks(l: Ledger, s: State, r: Registration)
    requires Balanced(l, s) && r in [FIRST_AGENT, SECOND_AGENT] && Key(r.kind, r.id) !in s.agents
    requires Key(r.kind, r.id) !in s.pending
    ensures var e := RegisterAgent(r);
            var k := Key(r.kind, r.id);
            && Step(s, e).pending == s.pending + [k]
            && Step(s, e).agents.Keys == s.agents.Keys + {k}
            && Book(l, s, e) == l.(issued := l.issued + [k], waiting := l.waiting + [|l.issued|])
  {
    hide Balanced, HintMessage;
    assert !IsBlank(r.id) by {
      assert !IsWhitespace(r.id[0]);
    }
    var e := RegisterAgent(r);
    assert Step(s, e).pending == s.pending + [Key(r.kind, r.id)];
    assert NewRequests(s, e) == [Key(r.kind, r.id)];
    assert Numbers(|l.issued|, 1) == [|l.issued|];
  }

  /** One agent has asked. */
  lemma OneAsked()
    ensures var es := [RegisterAgent(FIRST_AGENT)];
            && Books(es) == NO_REQUESTS.(issued := [Key(Claude, "a")], waiting := [0])
            && Run(INITIAL, es).pending == [Key(Claude, "a")] && Run(INITIAL, es).agents.Keys == {Key(Claude, "a")}
  {
    hide Step, Book, Books, Run, Balanced;
    NothingBooked();
    BooksSnoc([], RegisterAgent(FIRST_AGENT));
    assert [] + [RegisterAgent(FIRST_AGENT)] == [RegisterAgent(FIRST_AGENT)];
    RegisterBooks(NO_REQUESTS, INITIAL, FIRST_AGENT);
  }

  /** A second one has asked, too. */
  lemma TwoAsked()
    ensures var es := [RegisterAgent(FIRST_AGENT), RegisterAgent(SECOND_AGENT)];
            && Books(es).waiting == [0, 1] && Books(es).replies == []
            && Run(INITIAL, es).pending == [Key(Claude, "a"), Key(Claude, "b")]
            && Key(Claude, "a") in Run(INITIAL, es).agents
  {
    hide Step, Book, Books, Run, Balanced;
    var es := [RegisterAgent(FIRST_AGENT)];
    assert "a"[0] != "b"[0];
    OneAsked();
    BooksSnoc(es, RegisterAgent(SECOND_AGENT));
    BalancedBooks(es);
    assert es + [RegisterAgent(SECOND_AGENT)] == [RegisterAgent(FIRST_AGENT), RegisterAgent(SECOND_AGENT)];
    RegisterBooks(Books(es), Run(INITIAL, es), SECOND_AGENT);
  }

  /** The first of two agents asked is aborted: the first reply then goes to the second request. */
  lemma AbortShiftsReplies()
    ensures Books([RegisterAgent(FIRST_AGENT), RegisterAgent(SECOND_AGENT), Event.AbortSession(Key(Claude, "a")),
                   BoardMessage(Cmd.SessionResponse, 1, [])]).replies == [Some(1)]
  {
    hide Step, Book, Books, Run, Balanced;
    var a, b := Key(Claude, "a"), Key(Claude, "b");
    var abort, grant := Event.AbortSession(a), BoardMessage(Cmd.SessionResponse, 1, []);
    assert "a"[0] != "b"[0];
    var es2 := [RegisterAgent(FIRST_AGENT), RegisterAgent(SECOND_AGENT)];
    var es3 := [RegisterAgent(FIRST_AGENT), RegisterAgent(SECOND_AGENT), abort];
    TwoAsked();
    BooksSnoc(es2, abort);
    assert es2 + [abort] == es3;
    AbortBooks(Books(es2), Run(INITIAL, es2), a, b);
    BooksSnoc(es3, grant);
    BookReply(Books(es3), Run(INITIAL, es3), grant);
    assert es3 + [grant] == [RegisterAgent(FIRST_AGENT), RegisterAgent(SECOND_AGENT), abort, grant];
  }

  lemma NothingBooked()
    ensures Books([]) == NO_REQUESTS && Run(INITIAL, []) == INITIAL && Balanced(NO_REQUESTS, INITIAL)
  {
  }

  lemma AbortBooks(l: Ledger, s: State, a: Key, b: Key)
    requires s.pending == [a, b] && a != b && a in s.agents && !a.kind.Unknown? && |l.waiting| == 2
    ensures Step(s, Event.AbortSession(a)).pending == [b]
    ensures Book(l, s, Event.AbortSession(a)) == l.(waiting := [l.waiting[1]], dropped := l.dropped + {l.waiting[0]})
  {
    assert [a, b][1..] == [b] && [b][1..] == [];
    assert Without([a, b], a) == Without([b], a) == [b];
    assert IndexOf(s.pending, a) == 0;
    assert l.waiting[..0] + l.waiting[1..] == [l.waiting[1]];
  }

  /** A reply that rejects, though it is not used for a request, shifts the ones after it. */
  lemma RejectionShiftsReplies()
    ensures Books([RegisterAgent(FIRST_AGENT), BoardMessage(Cmd.SessionResponse, 1, [2]),
                   BoardMessage(Cmd.SessionResponse, 1, [])]).replies == [None, Some(0)]
  {
    hide Step, Book, Books, Run, Balanced;
    var reject, grant := BoardMessage(Cmd.SessionResponse, 1, [2]), BoardMessage(Cmd.SessionResponse, 1, []);
    var es1 := [RegisterAgent(FIRST_AGENT)];
    var es2 := [RegisterAgent(FIRST_AGENT), reject];
    OneAsked();
    BooksSnoc(es1, reject);
    assert es1 + [reject] == es2;
    BookReply(Books(es1), Run(INITIAL, es1), reject);
    RejectionBooks(Books(es1), Run(INITIAL, es1), reject);
    BooksSnoc(es2, grant);
    assert es2 + [grant] == [RegisterAgent(FIRST_AGENT), reject, grant];
    BookReply(Books(es2), Run(INITIAL, es2), grant);
  }

  lemma RejectionBooks(l: Ledger, s: State, e: Event)
    requires |l.waiting| == |s.pending| && e == BoardMessage(Cmd.SessionResponse, 1, [2])
    ensures !IsGrant(s, e) && Book(l, s, e).waiting == l.waiting
    ensures Step(s, e).pending == s.pending
  {
    hide React;
    BoardReacts(s, e);
  }
}

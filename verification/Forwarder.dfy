/**
 * The bounded queue between the terminal loop, which must never block, and the
 * worker that sends to the daemon. Pusher and worker interleave at every queue
 * operation and every update of the counters.
 */
module Forwarder {
  import opened Utf8

  type Chunk = seq<byte>

  /** Where `push` stands; the data is what it still has to put. */
  datatype Pusher =
    | Ready
    | Dropping(data: Chunk)
    | CountingDrop(data: Chunk)
    | Retrying(data: Chunk)
    | CountingRejected
    | CountingPushed

  /** What the worker does; `at` is the position of the chunk it holds among those put. */
  datatype Worker = Waiting | Sending(item: Chunk, at: int) | CountingSent | CountingError

  datatype Stats = Stats(pushed: nat, sent: nat, dropped: nat, errors: nat)

  /**
   * The queue and the two threads, and the history: the chunks handed to `push`,
   * those put into the queue, those sent, and the positions the latter had among
   * those put.
   */
  datatype State = State(
    queue: seq<Chunk>, pusher: Pusher, worker: Worker, stats: Stats,
    offered: seq<Chunk>, entered: seq<Chunk>, wire: seq<Chunk>, delivered: seq<int>)

  const IDLE: State := State([], Ready, Waiting, Stats(0, 0, 0, 0), [], [], [], [])

  datatype Action = Push(data: Chunk) | PusherStep | WorkerStep(works: bool)

  /** A limit of zero or less means none, as for Python's `Queue`. */
  predicate IsFull(limit: int, queue: seq<Chunk>) {
    0 < limit <= |queue|
  }

  function Put(s: State, data: Chunk): State {
    s.(queue := s.queue + [data], entered := s.entered + [data], pusher := CountingPushed)
  }

  /** `push` up to and including its first queue operation. */
  function BeginPush(limit: int, s: State, data: Chunk): State {
    if !s.pusher.Ready? || data == [] then s
    else
      var t := s.(offered := s.offered + [data]);
      if IsFull(limit, s.queue) then t.(pusher := Dropping(data)) else Put(t, data)
  }

  function StepPusher(limit: int, s: State): State {
    match s.pusher
    case Ready => s
    case Dropping(data) =>
      if s.queue == [] then s.(pusher := Retrying(data))
      else s.(queue := s.queue[1..], pusher := CountingDrop(data))
    case CountingDrop(data) => s.(stats := s.stats.(dropped := s.stats.dropped + 1), pusher := Retrying(data))
    case Retrying(data) => if IsFull(limit, s.queue) then s.(pusher := CountingRejected) else Put(s, data)
    case CountingRejected => s.(stats := s.stats.(dropped := s.stats.dropped + 1), pusher := Ready)
    case CountingPushed => s.(stats := s.stats.(pushed := s.stats.pushed + 1), pusher := Ready)
  }

  function StepWorker(s: State, works: bool): State {
    match s.worker
    case Waiting =>
      if s.queue == [] then s
      else s.(queue := s.queue[1..], worker := Sending(s.queue[0], |s.entered| - |s.queue|))
    case Sending(item, at) =>
      if works then s.(wire := s.wire + [item], delivered := s.delivered + [at], worker := CountingSent)
      else s.(worker := CountingError)
    case CountingSent => s.(stats := s.stats.(sent := s.stats.sent + 1), worker := Waiting)
    case CountingError => s.(stats := s.stats.(errors := s.stats.errors + 1), worker := Waiting)
  }

  function Next(limit: int, s: State, a: Action): State {
    match a
    case Push(data) => BeginPush(limit, s, data)
    case PusherStep => StepPusher(limit, s)
    case WorkerStep(works) => StepWorker(s, works)
  }

  function Run(limit: int, actions: seq<Action>): State {
    if actions == [] then IDLE
    else Next(limit, Run(limit, actions[..|actions| - 1]), actions[|actions| - 1])
  }

  // ---- what every interleaving keeps

  function Pending(p: Pusher): seq<Chunk> {
    match p
    case Dropping(data) => [data]
    case CountingDrop(data) => [data]
    case Retrying(data) => [data]
    case Ready => []
    case CountingPushed => []
    case CountingRejected => []
  }

  /** The queue is the latest stretch of what was put; what was sent lies before it, in order. */
  ghost predicate Ordered(s: State) {
    && |s.queue| <= |s.entered|
    && s.queue == s.entered[|s.entered| - |s.queue|..]
    && (forall i, j :: 0 <= i < j < |s.delivered| ==> s.delivered[i] < s.delivered[j])
    && (forall i :: 0 <= i < |s.delivered| ==> 0 <= s.delivered[i] < |s.entered| - |s.queue|)
    && |s.wire| == |s.delivered|
    && (forall i :: 0 <= i < |s.delivered| ==> s.wire[i] == s.entered[s.delivered[i]])
    && (s.worker.Sending? ==>
          && 0 <= s.worker.at < |s.entered| - |s.queue|
          && s.entered[s.worker.at] == s.worker.item
          && forall i :: 0 <= i < |s.delivered| ==> s.delivered[i] < s.worker.at)
  }

  /** Every chunk put was sent, failed, dropped, or is still on its way. */
  ghost predicate Accounted(s: State) {
    && |s.entered| == s.stats.pushed + (if s.pusher.CountingPushed? then 1 else 0)
    && |s.entered| == s.stats.sent + s.stats.errors + s.stats.dropped + |s.queue|
                      + (if s.worker.Waiting? then 0 else 1) + (if s.pusher.CountingDrop? then 1 else 0)
    && |s.delivered| == s.stats.sent + (if s.worker.CountingSent? then 1 else 0)
  }

  /** Whoever waits to put a chunk again finds room, so no chunk handed in is refused. */
  ghost predicate Accepting(limit: int, s: State) {
    && s.offered == s.entered + Pending(s.pusher)
    && (0 < limit ==> |s.queue| <= limit)
    && (s.pusher.Retrying? || s.pusher.CountingDrop? ==> !IsFull(limit, s.queue))
    && !s.pusher.CountingRejected?
  }

  lemma PutKeepsOrder(s: State, data: Chunk)
    requires Ordered(s)
    ensures Ordered(Put(s, data))
  {
    var t := Put(s, data);
    assert forall i :: 0 <= i < |s.entered| ==> t.entered[i] == s.entered[i];
  }

  lemma PusherKeepsOrder(limit: int, s: State)
    requires Ordered(s)
    ensures Ordered(StepPusher(limit, s))
  {
    if s.pusher.Retrying? {
      PutKeepsOrder(s, s.pusher.data);
    }
    hide Put;
  }

  lemma WorkerKeepsOrder(s: State, works: bool)
    requires Ordered(s)
    ensures Ordered(StepWorker(s, works))
  {
    if s.worker.Waiting? && s.queue != [] {
      assert s.queue[0] == s.entered[|s.entered| - |s.queue|];
    }
  }

  lemma NextKeepsOrder(limit: int, s: State, a: Action)
    requires Ordered(s)
    ensures Ordered(Next(limit, s, a))
  {
    match a
    case PusherStep => PusherKeepsOrder(limit, s);
    case WorkerStep(works) => WorkerKeepsOrder(s, works);
    case Push(data) => PutKeepsOrder(s.(offered := s.offered + [data]), data);
    hide Put, StepPusher, StepWorker;
  }

  lemma NextKeepsAccount(limit: int, s: State, a: Action)
    requires Ordered(s) && Accounted(s) && Accepting(limit, s)
    ensures Accounted(Next(limit, s, a))
  {
  }

  lemma NextKeepsAccepting(limit: int, s: State, a: Action)
    requires Accepting(limit, s)
    ensures Accepting(limit, Next(limit, s, a))
  {
  }

  /**
   * For every interleaving: chunks are sent in the order they were handed in, none
   * twice; nothing is unaccounted for; the queue never exceeds its limit; and the
   * second overflow of a `push` never happens.
   */
  lemma {:induction false} EveryInterleavingIsOrderly(limit: int, actions: seq<Action>)
    ensures var s := Run(limit, actions); Ordered(s) && Accounted(s) && Accepting(limit, s)
  {
    if actions != [] {
      var s, a := Run(limit, actions[..|actions| - 1]), actions[|actions| - 1];
      EveryInterleavingIsOrderly(limit, actions[..|actions| - 1]);
      NextKeepsOrder(limit, s, a);
      NextKeepsAccount(limit, s, a);
      NextKeepsAccepting(limit, s, a);
      hide Next, Ordered, Accounted, Accepting;
    }
  }

  /** Between two calls of `push`, everything handed in was accepted and the counters balance. */
  lemma BalanceAtRest(limit: int, actions: seq<Action>)
    requires Run(limit, actions).pusher.Ready?
    ensures var s := Run(limit, actions);
            && s.entered == s.offered
            && s.stats.pushed == |s.offered|
            && s.stats.pushed == s.stats.sent + s.stats.errors + s.stats.dropped + |s.queue|
                                 + if s.worker.Waiting? then 0 else 1
  {
    EveryInterleavingIsOrderly(limit, actions);
    hide Run;
  }

  /** Nothing empty is handed in, put or sent. */
  lemma {:induction false} NothingEmptyIsSent(limit: int, actions: seq<Action>)
    ensures var s := Run(limit, actions);
            && (forall i :: 0 <= i < |s.offered| ==> s.offered[i] != [])
            && (forall i :: 0 <= i < |s.entered| ==> s.entered[i] != [])
            && (forall i :: 0 <= i < |s.wire| ==> s.wire[i] != [])
  {
    EveryInterleavingIsOrderly(limit, actions);
    OfferedIsFilled(limit, actions);
    hide Run;
    var s := Run(limit, actions);
    assert forall i :: 0 <= i < |s.entered| ==> s.entered[i] == s.offered[i];
  }

  lemma {:induction false} OfferedIsFilled(limit: int, actions: seq<Action>)
    ensures forall i :: 0 <= i < |Run(limit, actions).offered| ==> Run(limit, actions).offered[i] != []
  {
    if actions != [] {
      OfferedIsFilled(limit, actions[..|actions| - 1]);
    }
  }

  function Actions(p: Pusher): nat {
    match p
    case Ready => 0
    case CountingPushed => 1
    case CountingRejected => 1
    case Retrying(data) => 2
    case CountingDrop(data) => 3
    case Dropping(data) => 4
  }

  /** `push` never blocks: whatever the worker does, at most four of its own steps finish it. */
  lemma PushNeverBlocks(limit: int, s: State)
    requires !s.pusher.Ready?
    ensures Actions(StepPusher(limit, s).pusher) < Actions(s.pusher) <= 4
    ensures forall works :: StepWorker(s, works).pusher == s.pusher
  {
  }
}

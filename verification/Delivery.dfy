/**
 * Delivery of the outbox over whole runs, with the transport failing at
 * arbitrary frames. A failed message goes back to the head of the outbox and is
 * sent again from its first frame, so the board sees each message as some
 * proper prefixes of its frames followed by all of them, in enqueue order.
 */
module Delivery {
  import opened Sequences
  import opened Codec
  import opened DaemonModel
  import opened DaemonInvariant

  /** A message that went out whole after failing after `cuts[0]`, `cuts[1]`, ... frames. */
  datatype Sent = Sent(msg: Msg, cuts: seq<nat>)

  /** The messages sent so far and the failed attempts on the one now at the head. */
  datatype Progress = Progress(done: seq<Sent>, cuts: seq<nat>)

  const NOTHING_SENT: Progress := Progress([], [])

  ghost predicate ProperCuts(m: Msg, cuts: seq<nat>) {
    forall i :: 0 <= i < |cuts| ==> cuts[i] < |FramesOf(m)|
  }

  /** The frames of the failed attempts: one proper prefix per cut. */
  ghost function Attempts(m: Msg, cuts: seq<nat>): seq<Frame>
    requires ProperCuts(m, cuts)
  {
    if cuts == [] then []
    else
      var init, last := cuts[..|cuts| - 1], cuts[|cuts| - 1];
      Attempts(m, init) + FramesOf(m)[..last]
  }

  ghost function Transcript(done: seq<Sent>): seq<Frame>
    requires forall i :: 0 <= i < |done| ==> ProperCuts(done[i].msg, done[i].cuts)
  {
    if done == [] then []
    else
      var init, last := done[..|done| - 1], done[|done| - 1];
      Transcript(init) + Attempts(last.msg, last.cuts) + FramesOf(last.msg)
  }

  function Messages(done: seq<Sent>): seq<Msg> {
    seq(|done|, i requires 0 <= i < |done| => done[i].msg)
  }

  /** `wire` is what `p` says, and the outbox is what is left. */
  ghost predicate Explains(p: Progress, wire: seq<Frame>, outbox: seq<Msg>) {
    && (forall i :: 0 <= i < |p.done| ==> ProperCuts(p.done[i].msg, p.done[i].cuts))
    && (outbox == [] ==> p.cuts == [])
    && (outbox != [] ==> ProperCuts(outbox[0], p.cuts))
    && wire == Transcript(p.done) + if outbox == [] then [] else Attempts(outbox[0], p.cuts)
  }

  /** One flush: messages that fit the accepted frames are done, the next one is cut. */
  function Flushed(p: Progress, outbox: seq<Msg>, accepts: nat): Progress
    decreases |outbox|
  {
    if outbox == [] then p
    else
      var frames := FramesOf(outbox[0]);
      if accepts < |frames| then p.(cuts := p.cuts + [accepts])
      else Flushed(Progress(p.done + [Sent(outbox[0], p.cuts)], []), outbox[1..], accepts - |frames|)
  }

  lemma CutExplained(p: Progress, wire: seq<Frame>, outbox: seq<Msg>, accepts: nat)
    requires Explains(p, wire, outbox) && outbox != [] && accepts < |FramesOf(outbox[0])|
    ensures Explains(p.(cuts := p.cuts + [accepts]), wire + FramesOf(outbox[0])[..accepts], outbox)
  {
    var cuts := p.cuts + [accepts];
    assert cuts[..|p.cuts|] == p.cuts;
    hide FramesOf;
    assert Attempts(outbox[0], cuts) == Attempts(outbox[0], p.cuts) + FramesOf(outbox[0])[..accepts];
  }

  lemma MessageExplained(p: Progress, wire: seq<Frame>, outbox: seq<Msg>)
    requires Explains(p, wire, outbox) && outbox != []
    ensures Explains(Progress(p.done + [Sent(outbox[0], p.cuts)], []), wire + FramesOf(outbox[0]), outbox[1..])
  {
    var done := p.done + [Sent(outbox[0], p.cuts)];
    assert done[..|p.done|] == p.done;
    hide FramesOf;
    assert outbox[1..] != [] ==> Attempts(outbox[1..][0], []) == [];
    assert Transcript(done) == Transcript(p.done) + Attempts(outbox[0], p.cuts) + FramesOf(outbox[0]);
  }

  lemma {:induction false} FlushExplained(p: Progress, wire: seq<Frame>, outbox: seq<Msg>, accepts: nat)
    requires Explains(p, wire, outbox)
    ensures Explains(Flushed(p, outbox, accepts), wire + SentFrames(outbox, accepts), Unsent(outbox, accepts))
    decreases |outbox|
  {
    hide FramesOf, Explains;
    if outbox == [] {
      assert wire + [] == wire;
      return;
    }
    var frames := FramesOf(outbox[0]);
    if accepts < |frames| {
      CutExplained(p, wire, outbox, accepts);
      return;
    }
    MessageExplained(p, wire, outbox);
    var next := Progress(p.done + [Sent(outbox[0], p.cuts)], []);
    FlushExplained(next, wire + frames, outbox[1..], accepts - |frames|);
    assert wire + (frames + SentFrames(outbox[1..], accepts - |frames|))
        == wire + frames + SentFrames(outbox[1..], accepts - |frames|);
  }

  /** A flush neither loses nor reorders a message. */
  lemma {:induction false} FlushKeepsMessages(p: Progress, outbox: seq<Msg>, accepts: nat)
    ensures Messages(Flushed(p, outbox, accepts).done) + Unsent(outbox, accepts) == Messages(p.done) + outbox
    decreases |outbox|
  {
    hide FramesOf;
    if outbox != [] && |FramesOf(outbox[0])| <= accepts {
      var next := Progress(p.done + [Sent(outbox[0], p.cuts)], []);
      FlushKeepsMessages(next, outbox[1..], accepts - |FramesOf(outbox[0])|);
      assert Messages(next.done) + outbox[1..] == Messages(p.done) + outbox;
    }
  }

  /** Enqueueing more changes neither the wire nor what is being sent. */
  lemma EnqueueExplained(p: Progress, wire: seq<Frame>, outbox: seq<Msg>, more: seq<Msg>)
    requires Explains(p, wire, outbox)
    ensures Explains(p, wire, outbox + more)
  {
    if outbox == [] && more != [] {
      assert ProperCuts((outbox + more)[0], p.cuts);
    }
  }

  // ---- whole runs

  ghost function SentBy(s: State, e: Event): seq<Frame> {
    if e.Flush? && e.connected then SentFrames(s.outbox, e.accepts) else []
  }

  /** Every frame the transport accepted during a run. */
  ghost function Wire(s: State, es: seq<Event>): seq<Frame> {
    if es == [] then []
    else Wire(s, es[..|es| - 1]) + SentBy(Run(s, es[..|es| - 1]), es[|es| - 1])
  }

  ghost function Track(s: State, es: seq<Event>): Progress {
    if es == [] then NOTHING_SENT
    else
      var p, t, e := Track(s, es[..|es| - 1]), Run(s, es[..|es| - 1]), es[|es| - 1];
      if e.Flush? && e.connected then Flushed(p, t.outbox, e.accepts) else p
  }

  lemma FlushStep(s: State, e: Event)
    requires e.Flush?
    ensures Step(s, e).outbox == (if e.connected then Unsent(s.outbox, e.accepts) else s.outbox)
    ensures Enqueued(s, e) == []
  {
  }

  /** What is known after each step: `log` was enqueued, `wire` was accepted. */
  ghost predicate InOrder(p: Progress, wire: seq<Frame>, outbox: seq<Msg>, log: seq<Msg>) {
    Explains(p, wire, outbox) && Messages(p.done) + outbox == log
  }

  lemma FlushInOrder(s: State, e: Event, p: Progress, wire: seq<Frame>, log: seq<Msg>)
    requires e.Flush? && InOrder(p, wire, s.outbox, log)
    ensures var q := if e.connected then Flushed(p, s.outbox, e.accepts) else p;
            InOrder(q, wire + SentBy(s, e), Step(s, e).outbox, log + Enqueued(s, e))
  {
    FlushStep(s, e);
    FlushExplained(p, wire, s.outbox, e.accepts);
    FlushKeepsMessages(p, s.outbox, e.accepts);
    hide Explains, Flushed, Unsent, SentFrames, Step, Enqueued;
    assert wire + [] == wire && log + [] == log;
  }

  lemma EnqueueInOrder(s: State, e: Event, p: Progress, wire: seq<Frame>, log: seq<Msg>)
    requires !e.Flush? && Inv(s) && Legal(s, e) && InOrder(p, wire, s.outbox, log)
    ensures InOrder(p, wire + SentBy(s, e), Step(s, e).outbox, log + Enqueued(s, e))
  {
    hide Step, Inv, Legal, Enqueued, Explains;
    StepSaysProperly(s, e);
    EnqueueExplained(p, wire, s.outbox, Enqueued(s, e));
    assert Messages(p.done) + (s.outbox + Enqueued(s, e)) == Messages(p.done) + s.outbox + Enqueued(s, e);
    assert wire + [] == wire;
  }

  /**
   * Over any legal run from the start, whichever sends fail: the messages sent
   * whole, followed by the outbox, are exactly the messages enqueued, in order;
   * and the frames accepted are, message by message, the prefixes of the failed
   * attempts and then all its frames, plus the attempts on the message now at
   * the head of the outbox.
   */
  lemma {:induction false} DeliveryInOrder(es: seq<Event>)
    requires LegalRun(INITIAL, es)
    ensures InOrder(Track(INITIAL, es), Wire(INITIAL, es), Run(INITIAL, es).outbox, Log(INITIAL, es))
  {
    hide Step, Enqueued, Legal, LegalRun, Inv, InOrder, SentBy, Flushed;
    if es == [] {
      NothingExplained();
      return;
    }
    var init, e := es[..|es| - 1], es[|es| - 1];
    var s := Run(INITIAL, init);
    LegalPrefix(INITIAL, es);
    DeliveryInOrder(init);
    if e.Flush? {
      FlushInOrder(s, e, Track(INITIAL, init), Wire(INITIAL, init), Log(INITIAL, init));
    } else {
      InitialInv();
      RunKeepsInv(INITIAL, init);
      EnqueueInOrder(s, e, Track(INITIAL, init), Wire(INITIAL, init), Log(INITIAL, init));
    }
  }

  lemma NothingExplained()
    ensures InOrder(NOTHING_SENT, [], INITIAL.outbox, [])
  {
  }

  /** The board's concatenation of a message's final, complete attempt is its payload. */
  lemma CompletedFramesArePayload(m: Msg)
    ensures Flatten(FramePayloads(FramesOf(m))) == m.payload
    ensures forall i :: 0 <= i < |FramesOf(m)| ==>
      && FramesOf(m)[i] == FrameOf(m.cmd, m.sid, FramesOf(m)[i].payload)
      && |FramesOf(m)[i].payload| <= HID_MAX_PAYLOAD
  {
    SplitReassembles(m.cmd, m.sid, m.payload);
  }

  lemma {:induction false} SingleFrameAttempts(m: Msg, cuts: seq<nat>)
    requires |FramesOf(m)| == 1 && ProperCuts(m, cuts)
    ensures Attempts(m, cuts) == []
  {
    if cuts != [] {
      SingleFrameAttempts(m, cuts[..|cuts| - 1]);
      assert FramesOf(m)[..0] == [];
    }
  }

  /**
   * Failed attempts show the board something only for terminal output: every
   * other message the daemon ever sends arrives as one frame, exactly once.
   */
  lemma OthersArriveOnce(es: seq<Event>, n: nat)
    requires LegalRun(INITIAL, es) && n < |Track(INITIAL, es).done|
    requires Track(INITIAL, es).done[n].msg.cmd != Cmd.Vt100Stream
    ensures var sent := Track(INITIAL, es).done[n];
            && ProperCuts(sent.msg, sent.cuts)
            && Attempts(sent.msg, sent.cuts) + FramesOf(sent.msg) ==
                 [FrameOf(sent.msg.cmd, sent.msg.sid, sent.msg.payload)]
  {
    hide Step, Enqueued, Legal, LegalRun, Inv, Flushed, Unsent;
    var sent := Track(INITIAL, es).done[n];
    DeliveryInOrder(es);
    assert Log(INITIAL, es)[n] == Messages(Track(INITIAL, es).done)[n] == sent.msg;
    LoggedFits(es, n);
    SplitReassembles(sent.msg.cmd, sent.msg.sid, sent.msg.payload);
    SingleFrameAttempts(sent.msg, sent.cuts);
    var frames := FramesOf(sent.msg);
    assert FramePayloads(frames) == [frames[0].payload];
    assert Flatten(FramePayloads(frames)) == frames[0].payload + Flatten(FramePayloads(frames)[1..]);
    assert frames == [frames[0]];
  }

  lemma {:induction false} LoggedFits(es: seq<Event>, n: nat)
    requires LegalRun(INITIAL, es) && n < |Log(INITIAL, es)| && Log(INITIAL, es)[n].cmd != Cmd.Vt100Stream
    ensures |Log(INITIAL, es)[n].payload| <= HID_MAX_PAYLOAD
  {
    hide Step, Enqueued, LegalRun, Legal, Inv;
    var init, e := es[..|es| - 1], es[|es| - 1];
    var before := |Log(INITIAL, init)|;
    LegalPrefix(INITIAL, es);
    if n < before {
      LoggedFits(init, n);
    } else {
      var s := Run(INITIAL, init);
      InitialInv();
      RunKeepsInv(INITIAL, init);
      if e.Flush? {
        FlushStep(s, e);
      } else {
        StepSaysProperly(s, e);
        assert Proper(Step(s, e), Enqueued(s, e)[n - before]);
      }
    }
  }

  function FrameCount(outbox: seq<Msg>): nat {
    if outbox == [] then 0 else |FramesOf(outbox[0])| + FrameCount(outbox[1..])
  }

  /** A flush empties the outbox exactly when the transport takes that many frames. */
  lemma {:induction false} FlushDrainsIff(outbox: seq<Msg>, accepts: nat)
    ensures Unsent(outbox, accepts) == [] <==> FrameCount(outbox) <= accepts
  {
    if outbox != [] && |FramesOf(outbox[0])| <= accepts {
      FlushDrainsIff(outbox[1..], accepts - |FramesOf(outbox[0])|);
    }
  }
}

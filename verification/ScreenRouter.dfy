/**
 * The Python daemon's terminal buffers: one list of chunks per session, evicted
 * chunk by chunk, and one active session whose output is mirrored to the screen
 * sink. The calls made to the sink are the list `calls`.
 */
module ScreenRouter {
  import opened Wrappers
  import opened Sequences
  import opened Utf8

  /** ESC [ 2 J ESC [ H */
  const SCREEN_CLEAR: seq<byte> := [0x1B, 0x5B, 0x32, 0x4A, 0x1B, 0x5B, 0x48]

  type Chunks = seq<seq<byte>>

  function Total(chunks: Chunks): nat {
    if chunks == [] then 0 else |chunks[0]| + Total(chunks[1..])
  }

  /** What is left of `chunks` when whole chunks are dropped from the front until the rest fits. */
  function Fitting(chunks: Chunks, cap: nat): (kept: Chunks)
    ensures Total(kept) <= cap
  {
    if Total(chunks) <= cap then chunks else Fitting(chunks[1..], cap)
  }

  lemma {:induction false} TotalIsLength(chunks: Chunks)
    ensures Total(chunks) == |Flatten(chunks)|
  {
    if chunks != [] {
      TotalIsLength(chunks[1..]);
    }
  }

  lemma TotalSnoc(chunks: Chunks, chunk: seq<byte>)
    ensures Total(chunks + [chunk]) == Total(chunks) + |chunk|
  {
    TotalIsLength(chunks);
    TotalIsLength(chunks + [chunk]);
    FlattenSnoc(chunks, chunk);
  }

  /** It is a suffix, and no longer suffix of whole chunks fits. */
  lemma {:induction false} FittingIsLongest(chunks: Chunks, cap: nat)
    ensures |Fitting(chunks, cap)| <= |chunks|
    ensures Fitting(chunks, cap) == chunks[|chunks| - |Fitting(chunks, cap)|..]
    ensures forall k :: 0 <= k <= |chunks| && Total(chunks[k..]) <= cap ==> |chunks| - k <= |Fitting(chunks, cap)|
  {
    if Total(chunks) > cap {
      FittingIsLongest(chunks[1..], cap);
      assert chunks[0..] == chunks;
      forall k | 0 <= k <= |chunks| && Total(chunks[k..]) <= cap ensures |chunks| - k <= |Fitting(chunks, cap)| {
        if k > 0 {
          assert chunks[1..][k - 1..] == chunks[k..];
        }
      }
    }
  }

  /** Evicting after every chunk keeps the same chunks as evicting once at the end. */
  lemma {:induction false} FittingTwice(chunks: Chunks, chunk: seq<byte>, cap: nat)
    ensures Fitting(Fitting(chunks, cap) + [chunk], cap) == Fitting(chunks + [chunk], cap)
  {
    if Total(chunks) > cap {
      FittingTwice(chunks[1..], chunk, cap);
      TotalSnoc(chunks, chunk);
      assert (chunks + [chunk])[1..] == chunks[1..] + [chunk];
    }
  }

  lemma {:induction false} FittingIsSuffix(chunks: Chunks, cap: nat)
    ensures EndsWith(Flatten(chunks), Flatten(Fitting(chunks, cap)))
  {
    if Total(chunks) > cap {
      FittingIsSuffix(chunks[1..], cap);
      EndsWithMore(chunks[0], Flatten(chunks[1..]), Flatten(Fitting(chunks, cap)));
    }
  }

  lemma EndsWithMore(front: seq<byte>, s: seq<byte>, suffix: seq<byte>)
    requires EndsWith(s, suffix)
    ensures EndsWith(front + s, suffix)
  {
    assert (front + s)[|front + s| - |suffix|..] == s[|s| - |suffix|..];
  }

  lemma EndsWithBoth(s: seq<byte>, suffix: seq<byte>, more: seq<byte>)
    requires EndsWith(s, suffix)
    ensures EndsWith(s + more, suffix + more)
  {
    assert (s + more)[|s + more| - |suffix + more|..] == s[|s| - |suffix|..] + more;
  }

  lemma EndsWithTransitive(a: seq<byte>, b: seq<byte>, c: seq<byte>)
    requires EndsWith(a, b) && EndsWith(b, c)
    ensures EndsWith(a, c)
  {
    assert a[|a| - |c|..] == b[|b| - |c|..];
  }

  /** Of two suffixes of one sequence, the longer ends with the shorter. */
  lemma SuffixesCompare(s: seq<byte>, a: seq<byte>, b: seq<byte>)
    requires EndsWith(s, a) && EndsWith(s, b)
    ensures EndsWith(a, b) <==> |b| <= |a|
  {
    if |b| <= |a| {
      assert a[|a| - |b|..] == s[|s| - |b|..];
    }
  }

  /** Appending a chunk to what the screen shows and to what is held keeps them in step. */
  lemma ShownStaysInStep(shown: seq<byte>, held: Chunks, chunk: seq<byte>, cap: nat)
    requires EndsWith(shown, Flatten(held))
    ensures EndsWith(shown + chunk, Flatten(Fitting(held + [chunk], cap)))
  {
    FlattenSnoc(held, chunk);
    EndsWithBoth(shown, Flatten(held), chunk);
    FittingIsSuffix(held + [chunk], cap);
    EndsWithTransitive(shown + chunk, Flatten(held + [chunk]), Flatten(Fitting(held + [chunk], cap)));
  }

  datatype SinkCall = SinkCall(sid: nat, data: seq<byte>)

  function SinkBytes(calls: seq<SinkCall>): seq<byte> {
    if calls == [] then [] else SinkBytes(calls[..|calls| - 1]) + calls[|calls| - 1].data
  }

  lemma SinkBytesSnoc(calls: seq<SinkCall>, mark: nat, call: SinkCall)
    requires mark <= |calls|
    ensures SinkBytes((calls + [call])[mark..]) == SinkBytes(calls[mark..]) + call.data
  {
    assert (calls + [call])[mark..] == calls[mark..] + [call];
    assert (calls[mark..] + [call])[..|calls| - mark] == calls[mark..];
  }

  lemma NoSinkBytes(calls: seq<SinkCall>)
    ensures SinkBytes(calls[|calls|..]) == []
  {
  }

  lemma NothingHeld(cap: nat)
    ensures Fitting([], cap) == [] && Total([]) == 0 && Flatten<byte>([]) == []
  {
  }

  lemma EndsWithNothing(s: seq<byte>)
    ensures EndsWith(s, [])
  {
  }

  /** The three tables list the same sessions; each holds the fitting suffix of its own chunks. */
  ghost predicate BuffersOk(order: seq<nat>, buffers: map<nat, Chunks>, sizes: map<nat, nat>, own: map<nat, Chunks>,
                            cap: nat)
  {
    && NoDuplicates(order)
    && (forall sid :: sid in order <==> sid in buffers)
    && (forall sid :: sid in buffers <==> sid in sizes)
    && (forall sid :: sid in buffers <==> sid in own)
    && (forall sid :: sid in buffers && sid in own ==> buffers[sid] == Fitting(own[sid], cap))
    && (forall sid :: sid in buffers && sid in sizes ==> sizes[sid] == Total(buffers[sid]))
  }

  /** What the screen shows of the active session: its last state, or only its latest output. */
  ghost predicate ShownOk(shown: seq<byte>, replayed: bool, held: Chunks, all: Chunks) {
    if replayed then EndsWith(shown, Flatten(held)) else EndsWith(Flatten(all), shown)
  }

  /** The active session has a buffer, and only its output was sent since its activation. */
  ghost predicate InStep(active: Option<nat>, buffers: map<nat, Chunks>, own: map<nat, Chunks>,
                         calls: seq<SinkCall>, mark: nat, replayed: bool, hasSink: bool)
  {
    && mark <= |calls|
    && (active.Some? ==>
          && active.value in buffers && active.value in own
          && (forall i :: mark <= i < |calls| ==> calls[i].sid == active.value)
          && (hasSink ==> ShownOk(SinkBytes(calls[mark..]), replayed, buffers[active.value], own[active.value])))
  }

  lemma AddKeepsBuffers(order: seq<nat>, buffers: map<nat, Chunks>, sizes: map<nat, nat>, own: map<nat, Chunks>,
                        cap: nat, sid: nat)
    requires BuffersOk(order, buffers, sizes, own, cap) && sid !in buffers
    ensures BuffersOk(order + [sid], buffers[sid := []], sizes[sid := 0], own[sid := []], cap)
  {
    NothingHeld(cap);
    hide Fitting, Total;
  }

  lemma DropKeepsBuffers(order: seq<nat>, buffers: map<nat, Chunks>, sizes: map<nat, nat>, own: map<nat, Chunks>,
                         cap: nat, sid: nat)
    requires BuffersOk(order, buffers, sizes, own, cap)
    ensures BuffersOk(Without(order, sid), buffers - {sid}, sizes - {sid}, own - {sid}, cap)
  {
    WithoutKeepsDistinct(order, sid);
    hide Fitting, Total, Without, NoDuplicates;
  }

  lemma GrowKeepsBuffers(order: seq<nat>, buffers: map<nat, Chunks>, sizes: map<nat, nat>, own: map<nat, Chunks>,
                         cap: nat, sid: nat, data: seq<byte>)
    requires BuffersOk(order, buffers, sizes, own, cap) && sid in buffers
    ensures var kept := Fitting(buffers[sid] + [data], cap);
            BuffersOk(order, buffers[sid := kept], sizes[sid := Total(kept)], own[sid := own[sid] + [data]], cap)
  {
    FittingTwice(own[sid], data, cap);
    hide Fitting, Total, NoDuplicates;
  }

  lemma GrownIsShown(shown: seq<byte>, replayed: bool, held: Chunks, all: Chunks, data: seq<byte>, cap: nat)
    requires ShownOk(shown, replayed, held, all)
    ensures ShownOk(shown + data, replayed, Fitting(held + [data], cap), all + [data])
  {
    hide Fitting, Total;
    if replayed {
      ShownStaysInStep(shown, held, data, cap);
    } else {
      FlattenSnoc(all, data);
      EndsWithBoth(Flatten(all), shown, data);
    }
  }

  lemma ReplayIsShown(calls: seq<SinkCall>, call: SinkCall, front: seq<byte>, held: Chunks, all: Chunks)
    requires call.data == front + Flatten(held)
    ensures ShownOk(SinkBytes((calls + [call])[|calls|..]), true, held, all)
  {
    SinkBytesSnoc(calls, |calls|, call);
    assert SinkBytes(calls[|calls|..]) + call.data == call.data;
    EndsWithSuffix(front, Flatten(held));
  }

  lemma BufferIsOwned(order: seq<nat>, buffers: map<nat, Chunks>, sizes: map<nat, nat>, own: map<nat, Chunks>,
                      cap: nat, sid: nat)
    requires BuffersOk(order, buffers, sizes, own, cap)
    ensures sid in buffers <==> sid in own
    ensures sid in buffers <==> sid in order
    ensures sid in buffers <==> sid in sizes
    ensures sid in buffers ==> sizes[sid] == Total(buffers[sid])
    ensures order != [] ==> order[0] in buffers
  {
  }

  lemma AddKeepsStep(active: Option<nat>, buffers: map<nat, Chunks>, own: map<nat, Chunks>,
                     calls: seq<SinkCall>, mark: nat, replayed: bool, hasSink: bool, sid: nat)
    requires InStep(active, buffers, own, calls, mark, replayed, hasSink) && sid !in buffers
    ensures InStep(active, buffers[sid := []], own[sid := []], calls, mark, replayed, hasSink)
  {
    hide ShownOk, SinkBytes;
  }

  lemma DropKeepsStep(active: Option<nat>, buffers: map<nat, Chunks>, own: map<nat, Chunks>,
                      calls: seq<SinkCall>, mark: nat, replayed: bool, hasSink: bool, sid: nat)
    requires InStep(active, buffers, own, calls, mark, replayed, hasSink)
    ensures active != Some(sid) ==> InStep(active, buffers - {sid}, own - {sid}, calls, mark, replayed, hasSink)
  {
    hide ShownOk, SinkBytes;
  }

  /** A session becomes active, with a replay if there is a sink. */
  lemma ActivatedInStep(sid: nat, buffers: map<nat, Chunks>, own: map<nat, Chunks>, calls: seq<SinkCall>, hasSink: bool)
    requires sid in buffers && sid in own
    ensures var call := SinkCall(sid, SCREEN_CLEAR + Flatten(buffers[sid]));
            InStep(Some(sid), buffers, own, calls + if hasSink then [call] else [], |calls|, true, hasSink)
  {
    hide Flatten, SinkBytes, ShownOk;
    if hasSink {
      ReplayIsShown(calls, SinkCall(sid, SCREEN_CLEAR + Flatten(buffers[sid])), SCREEN_CLEAR, buffers[sid], own[sid]);
    }
  }

  /** No session is active. */
  lemma NoneInStep(buffers: map<nat, Chunks>, own: map<nat, Chunks>, calls: seq<SinkCall>, mark: nat, hasSink: bool)
    requires mark <= |calls|
    ensures InStep(None, buffers, own, calls, mark, true, hasSink)
  {
  }

  lemma ReplayKeepsStep(sid: nat, buffers: map<nat, Chunks>, own: map<nat, Chunks>,
                        calls: seq<SinkCall>, mark: nat, replayed: bool, hasSink: bool)
    requires InStep(Some(sid), buffers, own, calls, mark, replayed, hasSink) && sid in buffers
    ensures InStep(Some(sid), buffers, own, calls + [SinkCall(sid, SCREEN_CLEAR + Flatten(buffers[sid]))], mark, true,
                   hasSink)
  {
    hide SinkBytes, Flatten;
    var call := SinkCall(sid, SCREEN_CLEAR + Flatten(buffers[sid]));
    var before := SinkBytes(calls[mark..]);
    SinkBytesSnoc(calls, mark, call);
    EndsWithSuffix(before + SCREEN_CLEAR, Flatten(buffers[sid]));
    assert before + SCREEN_CLEAR + Flatten(buffers[sid]) == before + call.data;
  }

  lemma FirstInStep(buffers: map<nat, Chunks>, own: map<nat, Chunks>, calls: seq<SinkCall>,
                    replayed: bool, hasSink: bool, sid: nat)
    requires sid in buffers && sid in own && (replayed ==> buffers[sid] == [])
    ensures InStep(Some(sid), buffers, own, calls, |calls|, replayed, hasSink)
  {
    NoSinkBytes(calls);
    EndsWithNothing(Flatten(own[sid]));
  }

  lemma AppendKeepsStep(active: Option<nat>, buffers: map<nat, Chunks>, own: map<nat, Chunks>,
                        calls: seq<SinkCall>, mark: nat, replayed: bool, hasSink: bool,
                        sid: nat, data: seq<byte>, cap: nat)
    requires InStep(active, buffers, own, calls, mark, replayed, hasSink) && sid in buffers && sid in own
    ensures InStep(active, buffers[sid := Fitting(buffers[sid] + [data], cap)], own[sid := own[sid] + [data]],
                   calls + if hasSink && active == Some(sid) then [SinkCall(sid, data)] else [],
                   mark, replayed, hasSink)
  {
    hide ShownOk, SinkBytes, Fitting;
    if hasSink && active == Some(sid) {
      SinkBytesSnoc(calls, mark, SinkCall(sid, data));
      GrownIsShown(SinkBytes(calls[mark..]), replayed, buffers[sid], own[sid], data, cap);
    } else {
      assert calls + [] == calls;
    }
  }

  lemma UpdateTwice<K, V>(m: map<K, V>, k: K, v: V, w: V)
    ensures m[k := v][k := w] == m[k := w]
  {
  }

  class Vt100Router {
    const bufferBytes: nat
    const hasSink: bool
    var order: seq<nat>
    var buffers: map<nat, Chunks>
    var sizes: map<nat, nat>
    var active: Option<nat>
    var calls: seq<SinkCall>

    /** Every chunk appended to a session's buffer since the buffer exists. */
    ghost var own: map<nat, Chunks>
    /** The sink calls made before the current activation. */
    ghost var mark: nat
    /** The activation replayed the buffer, or the buffer was new. */
    ghost var replayed: bool

    ghost predicate ValidBuffers()
      reads this
    {
      BuffersOk(order, buffers, sizes, own, bufferBytes)
    }

    /** What the sink received since the current activation. */
    ghost function Since(): seq<byte>
      reads this
      requires mark <= |calls|
    {
      SinkBytes(calls[mark..])
    }

    ghost predicate Valid()
      reads this
    {
      ValidBuffers() && InStep(active, buffers, own, calls, mark, replayed, hasSink)
    }

    constructor (bufferBytes: nat, hasSink: bool)
      ensures Valid() && this.bufferBytes == bufferBytes && this.hasSink == hasSink
      ensures order == [] && buffers == map[] && active == None && calls == []
    {
      this.bufferBytes, this.hasSink := bufferBytes, hasSink;
      order, buffers, sizes, active, calls := [], map[], map[], None, [];
      own, mark, replayed := map[], 0, false;
    }

    lemma BuffersAreOwned()
      requires Valid()
      ensures forall sid :: sid in buffers <==> sid in own
    {
    }

    lemma NoBuffersNoOrder()
      requires Valid()
      ensures order == [] <==> buffers == map[]
    {
      if order == [] {
        assert forall sid :: sid in buffers ==> sid in order;
        assert buffers.Keys == {};
      } else {
        assert order[0] in buffers;
      }
    }

    lemma ActiveIsBuffered()
      requires Valid()
      ensures active.Some? ==> active.value in buffers
    {
    }

    /** Whether the screen holds the active session's last state, exactly. */
    lemma ShowsSnapshotIff()
      requires Valid() && hasSink && active.Some?
      ensures mark <= |calls| && active.value in buffers
      ensures var snapshot := Flatten(buffers[active.value]);
              EndsWith(Since(), snapshot) <==> replayed || |snapshot| <= |Since()|
    {
      if !replayed {
        FittingIsSuffix(own[active.value], bufferBytes);
        SuffixesCompare(Flatten(own[active.value]), Since(), Flatten(buffers[active.value]));
      }
    }

    /** A missing buffer is made, empty. */
    method EnsureBuffer(sid: nat)
      requires Valid()
      modifies `order, `buffers, `sizes, `own
      ensures Valid()
      ensures buffers == if sid in old(buffers) then old(buffers) else old(buffers)[sid := []]
      ensures own == if sid in old(own) then old(own) else old(own)[sid := []]
      ensures order == if sid in old(buffers) then old(order) else old(order) + [sid]
      ensures sid in buffers && sid in own && sid in sizes
    {
      hide BuffersOk, InStep;
      BufferIsOwned(order, buffers, sizes, own, bufferBytes, sid);
      if sid !in buffers {
        AddKeepsBuffers(order, buffers, sizes, own, bufferBytes, sid);
        AddKeepsStep(active, buffers, own, calls, mark, replayed, hasSink, sid);
        order, buffers, own := order + [sid], buffers[sid := []], own[sid := []];
      }
      if sid !in sizes {
        sizes := sizes[sid := 0];
      }
      BufferIsOwned(order, buffers, sizes, own, bufferBytes, sid);
    }

    /** A new buffer is empty; the first one registered while none is active becomes active, without a replay. */
    method Register(sid: nat)
      requires Valid()
      modifies this
      ensures Valid()
      ensures calls == old(calls)
      ensures buffers == if sid in old(buffers) then old(buffers) else old(buffers)[sid := []]
      ensures own == if sid in old(own) then old(own) else old(own)[sid := []]
      ensures order == if sid in old(buffers) then old(order) else old(order) + [sid]
      ensures active == if old(active) == None then Some(sid) else old(active)
      ensures old(active) == None ==> mark == |calls| && replayed == (sid !in old(buffers))
      ensures old(active) != None ==> mark == old(mark) && replayed == old(replayed)
    {
      hide BuffersOk, InStep;
      ghost var isNew := sid !in buffers;
      EnsureBuffer(sid);
      if active == None {
        ActivateFirst(sid, isNew);
      }
    }

    method ActivateFirst(sid: nat, ghost isNew: bool)
      requires ValidBuffers() && sid in buffers && sid in own && (isNew ==> buffers[sid] == [])
      modifies `active, `mark, `replayed
      ensures Valid()
      ensures active == Some(sid) && mark == |calls| && replayed == isNew
    {
      FirstInStep(buffers, own, calls, isNew, hasSink, sid);
      hide BuffersOk, InStep;
      active := Some(sid);
      mark, replayed := |calls|, isNew;
    }

    /** Makes `sid` active and, if there is a sink, sends it a cleared screen and the whole buffer. */
    method Activate(sid: nat)
      requires ValidBuffers() && sid in buffers
      modifies `active, `calls, `mark, `replayed
      ensures Valid()
      ensures active == Some(sid) && replayed && mark == old(|calls|)
      ensures calls == old(calls) + if hasSink then [SinkCall(sid, SCREEN_CLEAR + Flatten(buffers[sid]))] else []
    {
      hide Flatten, SinkBytes, BuffersOk, InStep, SCREEN_CLEAR;
      BufferIsOwned(order, buffers, sizes, own, bufferBytes, sid);
      ActivatedInStep(sid, buffers, own, calls, hasSink);
      active := Some(sid);
      mark, replayed := |calls|, true;
      if hasSink {
        calls := calls + [SinkCall(sid, SCREEN_CLEAR + Flatten(buffers[sid]))];
      } else {
        assert calls + [] == calls;
      }
    }

    /** The oldest session left takes over, with a replay, or the screen is cleared. */
    method HandOver(sid: nat)
      requires ValidBuffers()
      modifies `active, `calls, `mark, `replayed
      ensures Valid()
      ensures order != [] ==> order[0] in buffers
      ensures active == if order == [] then None else Some(order[0])
      ensures calls == old(calls) +
                if !hasSink then []
                else if order == [] then [SinkCall(sid, SCREEN_CLEAR)]
                else [SinkCall(order[0], SCREEN_CLEAR + Flatten(buffers[order[0]]))]
      ensures replayed && mark == |old(calls)|
    {
      hide Flatten, BuffersOk, InStep, SCREEN_CLEAR;
      if order != [] {
        BufferIsOwned(order, buffers, sizes, own, bufferBytes, order[0]);
        Activate(order[0]);
        return;
      }
      active := None;
      mark, replayed := |calls|, true;
      if hasSink {
        calls := calls + [SinkCall(sid, SCREEN_CLEAR)];
      }
      NoneInStep(buffers, own, calls, mark, hasSink);
    }

    /** Only losing the active session shows on the screen. */
    method Unregister(sid: nat)
      requires Valid()
      modifies this
      ensures Valid()
      ensures buffers == old(buffers) - {sid} && own == old(own) - {sid}
      ensures order == Without(old(order), sid)
      ensures order != [] ==> order[0] in buffers
      ensures active == if old(active) != Some(sid) then old(active) else if order == [] then None else Some(order[0])
      ensures calls == old(calls) +
                if !hasSink || old(active) != Some(sid) then []
                else if order == [] then [SinkCall(sid, SCREEN_CLEAR)]
                else [SinkCall(order[0], SCREEN_CLEAR + Flatten(buffers[order[0]]))]
      ensures old(active) == Some(sid) ==> replayed && mark == |old(calls)|
      ensures old(active) != Some(sid) ==> mark == old(mark) && replayed == old(replayed)
    {
      hide Without, BuffersOk, Flatten, InStep, SCREEN_CLEAR;
      DropKeepsBuffers(order, buffers, sizes, own, bufferBytes, sid);
      DropKeepsStep(active, buffers, own, calls, mark, replayed, hasSink, sid);
      order := Without(order, sid);
      buffers, sizes, own := buffers - {sid}, sizes - {sid}, own - {sid};
      BufferIsOwned(order, buffers, sizes, own, bufferBytes, sid);
      if active == Some(sid) {
        HandOver(sid);
      }
    }

    /** Switching replays; naming the session that is already active does nothing. */
    method SetActive(target: Option<nat>) returns (known: bool)
      requires Valid()
      modifies `active, `calls, `mark, `replayed
      ensures Valid()
      ensures known == (target.None? || target.value in buffers)
      ensures active == if known then target else old(active)
      ensures calls == old(calls) +
                if !known || target == old(active) || !hasSink then []
                else if target.None? then [SinkCall(0, SCREEN_CLEAR)]
                else [SinkCall(target.value, SCREEN_CLEAR + Flatten(buffers[target.value]))]
      ensures known && target != old(active) ==> replayed && mark == |old(calls)|
      ensures !known || target == old(active) ==> mark == old(mark) && replayed == old(replayed)
    {
      hide Flatten, SinkBytes, ShownOk, BuffersOk;
      known := true;
      if target.None? {
        if active == None {
          return;
        }
        active := None;
        mark, replayed := |calls|, true;
        if hasSink {
          calls := calls + [SinkCall(0, SCREEN_CLEAR)];
        }
      } else if target.value !in buffers {
        return false;
      } else if active != target {
        Activate(target.value);
      }
    }

    method ReplayActive() returns (done: bool)
      requires Valid()
      modifies `calls, `replayed
      ensures Valid()
      ensures done == (active.Some? && hasSink)
      ensures done ==> replayed
      ensures calls == old(calls) +
                if done then [SinkCall(active.value, SCREEN_CLEAR + Flatten(buffers[active.value]))] else []
    {
      if active.None? || !hasSink {
        return false;
      }
      ActiveIsBuffered();
      ReplayKeepsStep(active.value, buffers, own, calls, mark, replayed, hasSink);
      hide BuffersOk, InStep, Flatten;
      var call := SinkCall(active.value, SCREEN_CLEAR + Flatten(buffers[active.value]));
      calls, replayed := calls + [call], true;
      done := true;
    }

    /** The eviction loop: oldest chunks go until the rest fits. */
    method EvictLocked(sid: nat)
      requires sid in buffers && sid in sizes && sizes[sid] == Total(buffers[sid])
      modifies `buffers, `sizes
      ensures buffers == old(buffers)[sid := Fitting(old(buffers)[sid], bufferBytes)]
      ensures sizes == old(sizes)[sid := Total(buffers[sid])]
    {
      ghost var start := buffers[sid];
      while sizes[sid] > bufferBytes && buffers[sid] != []
        invariant sid in buffers && buffers == old(buffers)[sid := buffers[sid]]
        invariant sid in sizes && sizes == old(sizes)[sid := sizes[sid]]
        invariant sizes[sid] == Total(buffers[sid])
        invariant Fitting(buffers[sid], bufferBytes) == Fitting(start, bufferBytes)
        decreases |buffers[sid]|
      {
        var dropped := buffers[sid][0];
        buffers := buffers[sid := buffers[sid][1..]];
        sizes := sizes[sid := sizes[sid] - |dropped|];
      }
    }

    /** The chunk goes in at the back, and the oldest ones out until the rest fits. */
    method PushChunk(sid: nat, data: seq<byte>)
      requires ValidBuffers() && sid in buffers && sid in sizes && sid in own
      modifies `buffers, `sizes, `own
      ensures ValidBuffers()
      ensures buffers == old(buffers)[sid := Fitting(old(buffers)[sid] + [data], bufferBytes)]
      ensures own == old(own)[sid := old(own)[sid] + [data]]
    {
      hide Fitting, Total, BuffersOk;
      ghost var kept, chunks := Fitting(buffers[sid] + [data], bufferBytes), buffers[sid] + [data];
      UpdateTwice(buffers, sid, chunks, kept);
      UpdateTwice(sizes, sid, Total(chunks), Total(kept));
      GrowKeepsBuffers(order, buffers, sizes, own, bufferBytes, sid, data);
      TotalSnoc(buffers[sid], data);
      BufferIsOwned(order, buffers, sizes, own, bufferBytes, sid);
      buffers := buffers[sid := buffers[sid] + [data]];
      sizes := sizes[sid := sizes[sid] + |data|];
      EvictLocked(sid);
      own := own[sid := own[sid] + [data]];
    }

    /** A buffer is made on demand; only the active session's output reaches the sink. */
    method Append(sid: nat, data: seq<byte>)
      requires Valid()
      modifies this
      ensures Valid()
      ensures active == old(active) && mark == old(mark) && replayed == old(replayed)
      ensures order == if data == [] || sid in old(buffers) then old(order) else old(order) + [sid]
      ensures buffers == if data == [] then old(buffers)
                         else old(buffers)[sid := Fitting(
                           (if sid in old(buffers) then old(buffers)[sid] else []) + [data], bufferBytes)]
      ensures own == if data == [] then old(own)
                     else old(own)[sid := (if sid in old(own) then old(own)[sid] else []) + [data]]
      ensures calls == old(calls) + if data != [] && hasSink && active == Some(sid) then [SinkCall(sid, data)] else []
    {
      hide Fitting, BuffersOk, InStep;
      if data == [] {
        return;
      }
      EnsureBuffer(sid);
      UpdateTwice(old(buffers), sid, [], Fitting(buffers[sid] + [data], bufferBytes));
      UpdateTwice(old(own), sid, [], own[sid] + [data]);
      AppendKeepsStep(active, buffers, own, calls, mark, replayed, hasSink, sid, data, bufferBytes);
      PushChunk(sid, data);
      if hasSink && active == Some(sid) {
        calls := calls + [SinkCall(sid, data)];
      } else {
        assert calls + [] == calls;
      }
    }

    /** The snapshot is the longest suffix of the session's own chunks that fits the bound. */
    method Snapshot(sid: nat) returns (bytes: seq<byte>)
      requires Valid()
      ensures sid !in buffers ==> bytes == []
      ensures sid in buffers ==> sid in own
      ensures sid in buffers ==> bytes == Flatten(Fitting(own[sid], bufferBytes)) && |bytes| <= bufferBytes
    {
      if sid !in buffers {
        return [];
      }
      TotalIsLength(buffers[sid]);
      bytes := Flatten(buffers[sid]);
    }
  }
}

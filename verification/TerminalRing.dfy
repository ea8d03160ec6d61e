/**
 * The bounded terminal history an agent keeps for replay: a list of chunks and
 * their total length. Appending drops the oldest bytes beyond 64 KiB, splitting
 * the first chunk when it has to.
 */
module TerminalRing {
  import opened Sequences
  import opened Utf8

  const VT100_BUFFER_BYTES: nat := 65536

  datatype Ring = Ring(chunks: seq<seq<byte>>, len: nat)

  const EMPTY_RING: Ring := Ring([], 0)

  function Snapshot(r: Ring): seq<byte> {
    Flatten(r.chunks)
  }

  /** The length field is the exact sum of the chunk lengths, within the bound. */
  ghost predicate WellFormed(r: Ring) {
    r.len == |Snapshot(r)| <= VT100_BUFFER_BYTES
  }

  function Trim(r: Ring): Ring
    decreases |r.chunks|
  {
    if r.len <= VT100_BUFFER_BYTES then r
    else if r.chunks == [] then EMPTY_RING
    else
      var overflow := r.len - VT100_BUFFER_BYTES;
      var front := r.chunks[0];
      if |front| <= overflow then Trim(Ring(r.chunks[1..], r.len - |front|))
      else Ring([front[overflow..]] + r.chunks[1..], VT100_BUFFER_BYTES)
  }

  function Append(r: Ring, bytes: seq<byte>): Ring {
    if bytes == [] then r
    else if |bytes| >= VT100_BUFFER_BYTES then
      Ring([bytes[|bytes| - VT100_BUFFER_BYTES..]], VT100_BUFFER_BYTES)
    else Trim(Ring(r.chunks + [bytes], r.len + |bytes|))
  }

  function AppendTimes(r: Ring, bytes: seq<byte>, times: nat): Ring {
    if times == 0 then r else Append(AppendTimes(r, bytes, times - 1), bytes)
  }

  /** The chunk-by-chunk trim loop, which always terminates. */
  method AppendTerminalBytes(ring: Ring, bytes: seq<byte>) returns (r: Ring)
    ensures r == Append(ring, bytes)
  {
    if bytes == [] {
      return ring;
    }
    if |bytes| >= VT100_BUFFER_BYTES {
      return Ring([bytes[|bytes| - VT100_BUFFER_BYTES..]], VT100_BUFFER_BYTES);
    }
    var chunks := ring.chunks + [bytes];
    var len: nat := ring.len + |bytes|;
    while len > VT100_BUFFER_BYTES
      invariant Trim(Ring(chunks, len)) == Append(ring, bytes)
      decreases |chunks|, len
    {
      if chunks == [] {
        return EMPTY_RING;
      }
      var overflow := len - VT100_BUFFER_BYTES;
      if |chunks[0]| <= overflow {
        len := len - |chunks[0]|;
        chunks := chunks[1..];
      } else {
        chunks := [chunks[0][overflow..]] + chunks[1..];
        len := len - overflow;
      }
    }
    r := Ring(chunks, len);
  }

  lemma {:induction false} TrimKeepsTheWindow(r: Ring)
    requires r.len == |Snapshot(r)|
    ensures WellFormed(Trim(r))
    ensures Snapshot(Trim(r)) == TakeLast(Snapshot(r), VT100_BUFFER_BYTES)
    decreases |r.chunks|
  {
    if r.len > VT100_BUFFER_BYTES {
      var overflow := r.len - VT100_BUFFER_BYTES;
      var front := r.chunks[0];
      var rest := Flatten(r.chunks[1..]);
      assert Snapshot(r) == front + rest;
      if |front| <= overflow {
        TrimKeepsTheWindow(Ring(r.chunks[1..], r.len - |front|));
        TakeLastIgnoresPrefix(front, rest, VT100_BUFFER_BYTES);
      } else {
        var trimmed := [front[overflow..]] + r.chunks[1..];
        assert Flatten(trimmed) == front[overflow..] + rest;
        assert (front + rest)[overflow..] == front[overflow..] + rest;
      }
    }
  }

  lemma TakeLastIgnoresPrefix<T>(a: seq<T>, b: seq<T>, n: nat)
    requires |b| >= n
    ensures TakeLast(a + b, n) == TakeLast(b, n)
  {
  }

  /** The ring is take-last-65536 of everything appended to it. */
  lemma AppendIsWindow(r: Ring, bytes: seq<byte>)
    requires WellFormed(r)
    ensures WellFormed(Append(r, bytes))
    ensures Snapshot(Append(r, bytes)) == TakeLast(Snapshot(r) + bytes, 65536)
  {
    if bytes == [] {
      assert Snapshot(r) + bytes == Snapshot(r);
    } else if |bytes| >= VT100_BUFFER_BYTES {
      var kept := bytes[|bytes| - VT100_BUFFER_BYTES..];
      assert Flatten([kept]) == kept;
      TakeLastIgnoresPrefix(Snapshot(r), bytes, VT100_BUFFER_BYTES);
    } else {
      FlattenSnoc(r.chunks, bytes);
      TrimKeepsTheWindow(Ring(r.chunks + [bytes], r.len + |bytes|));
    }
  }

  function Copies(bytes: seq<byte>, times: nat): seq<byte> {
    if times == 0 then [] else Copies(bytes, times - 1) + bytes
  }

  lemma {:induction false} AppendTimesIsWindow(r: Ring, bytes: seq<byte>, times: nat)
    requires WellFormed(r)
    ensures WellFormed(AppendTimes(r, bytes, times))
    ensures Snapshot(AppendTimes(r, bytes, times)) == TakeLast(Snapshot(r) + Copies(bytes, times), 65536)
  {
    if times == 0 {
      assert Snapshot(r) + [] == Snapshot(r);
    } else {
      var before := Copies(bytes, times - 1);
      AppendTimesIsWindow(r, bytes, times - 1);
      AppendIsWindow(AppendTimes(r, bytes, times - 1), bytes);
      TakeLastTwice(Snapshot(r) + before, bytes, VT100_BUFFER_BYTES);
      assert Snapshot(r) + before + bytes == Snapshot(r) + (before + bytes);
    }
  }
}

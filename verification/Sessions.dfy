/**
 * Session ids of the Python daemon: allocation by cyclic probing, eviction of
 * the least recently active session when the pool is full, expiry by idle time.
 *
 * A table is a dictionary in insertion order. Clock readings are parameters; the
 * calls made to the invalidation callback are the list `notices`.
 */
module Sessions {
  import opened Wrappers
  import opened Sequences

  datatype Status = Ok | Created | Invalid | Expired | PoolFull | Reclaimed | Disconnected

  datatype Session = Session(sid: nat, plugin: string, cwd: string, createdMs: int, lastActiveMs: int)

  datatype Notice = Notice(sid: nat, status: Status)

  type Table = seq<Session>

  function Sids(table: Table): (sids: seq<nat>)
    ensures |sids| == |table|
    ensures forall i :: 0 <= i < |table| ==> sids[i] == table[i].sid
  {
    seq(|table|, i requires 0 <= i < |table| => table[i].sid)
  }

  function NoticedSids(notices: seq<Notice>): (sids: seq<nat>)
    ensures |sids| == |notices|
  {
    seq(|notices|, i requires 0 <= i < |notices| => notices[i].sid)
  }

  function Notices(sids: seq<nat>, status: Status): (notices: seq<Notice>)
    ensures NoticedSids(notices) == sids
  {
    var notices := seq(|sids|, i requires 0 <= i < |sids| => Notice(sids[i], status));
    assert NoticedSids(notices) == sids;
    notices
  }

  /** The table without the sessions in `sids`, order kept. */
  function Dropped(table: Table, sids: seq<nat>): Table {
    if table == [] then []
    else if table[0].sid in sids then Dropped(table[1..], sids)
    else [table[0]] + Dropped(table[1..], sids)
  }

  /** The sessions last active before `cutoff`. */
  function Stale(table: Table, cutoff: int): seq<nat> {
    if table == [] then []
    else if table[0].lastActiveMs < cutoff then [table[0].sid] + Stale(table[1..], cutoff)
    else Stale(table[1..], cutoff)
  }

  function Touched(table: Table, sid: nat, now: int): (r: Table)
    ensures Sids(r) == Sids(table)
  {
    var r := seq(|table|, i requires 0 <= i < |table| =>
               if table[i].sid == sid then table[i].(lastActiveMs := now) else table[i]);
    assert Sids(r) == Sids(table);
    r
  }

  ghost predicate ValidTable(max: nat, table: Table) {
    && NoDuplicates(Sids(table))
    && forall i :: 0 <= i < |table| ==> 1 <= table[i].sid <= max
  }

  // ---- removing sessions

  lemma {:induction false} DroppedMembers(table: Table, sids: seq<nat>)
    ensures forall s :: s in Dropped(table, sids) <==> s in table && s.sid !in sids
  {
    if table != [] {
      DroppedMembers(table[1..], sids);
      assert table == [table[0]] + table[1..];
    }
  }

  lemma HasSid(table: Table, sid: nat)
    ensures sid in Sids(table) <==> exists s :: s in table && s.sid == sid
  {
    if sid in Sids(table) {
      var i :| 0 <= i < |table| && Sids(table)[i] == sid;
      assert table[i] in table;
    }
  }

  lemma DroppedSids(table: Table, sids: seq<nat>, sid: nat)
    ensures sid in Sids(Dropped(table, sids)) <==> sid in Sids(table) && sid !in sids
  {
    DroppedMembers(table, sids);
    HasSid(table, sid);
    HasSid(Dropped(table, sids), sid);
  }

  lemma ValidCons(max: nat, table: Table)
    requires ValidTable(max, table) && table != []
    ensures ValidTable(max, table[1..])
    ensures Sids(table) == [table[0].sid] + Sids(table[1..])
    ensures table[0].sid !in Sids(table[1..])
  {
    assert Sids(table) == [table[0].sid] + Sids(table[1..]);
  }

  lemma ConsStaysValid(max: nat, s: Session, table: Table)
    requires ValidTable(max, table) && 1 <= s.sid <= max && s.sid !in Sids(table)
    ensures ValidTable(max, [s] + table)
    ensures Sids([s] + table) == [s.sid] + Sids(table)
  {
    assert Sids([s] + table) == [s.sid] + Sids(table);
  }

  lemma {:induction false} DroppedStaysValid(max: nat, table: Table, sids: seq<nat>)
    requires ValidTable(max, table)
    ensures ValidTable(max, Dropped(table, sids))
  {
    if table != [] {
      ValidCons(max, table);
      DroppedStaysValid(max, table[1..], sids);
      DroppedSids(table[1..], sids, table[0].sid);
      ConsStaysValid(max, table[0], if table[0].sid in sids then [] else Dropped(table[1..], sids));
    }
  }

  /** What is dropped and what stays make up the table. */
  lemma {:induction false} DropOneCounts(max: nat, table: Table, sid: nat)
    requires ValidTable(max, table) && sid in Sids(table)
    ensures multiset(Sids(table)) == multiset(Sids(Dropped(table, [sid]))) + multiset{sid}
    ensures |Dropped(table, [sid])| == |table| - 1
  {
    var rest := table[1..];
    ValidCons(max, table);
    if table[0].sid == sid {
      DroppedNone(rest, [sid]);
    } else {
      DropOneCounts(max, rest, sid);
      assert Dropped(table, [sid]) == [table[0]] + Dropped(rest, [sid]);
      SidsOfCons(table[0], Dropped(rest, [sid]));
    }
    hide ValidTable, Dropped, Sids;
  }

  lemma SidsOfCons(s: Session, table: Table)
    ensures Sids([s] + table) == [s.sid] + Sids(table)
  {
  }

  lemma {:induction false} DroppedNone(table: Table, sids: seq<nat>)
    requires forall i :: 0 <= i < |table| ==> table[i].sid !in sids
    ensures Dropped(table, sids) == table
  {
    if table != [] {
      DroppedNone(table[1..], sids);
    }
  }

  lemma {:induction false} DroppedTwice(table: Table, a: seq<nat>, b: seq<nat>)
    ensures Dropped(Dropped(table, a), b) == Dropped(table, a + b)
  {
    if table != [] {
      DroppedTwice(table[1..], a, b);
      if table[0].sid !in a {
        var kept := [table[0]] + Dropped(table[1..], a);
        assert kept[1..] == Dropped(table[1..], a);
      }
    }
  }

  lemma {:induction false} StaleAreListed(table: Table, cutoff: int, sid: nat)
    requires sid in Stale(table, cutoff)
    ensures sid in Sids(table)
  {
    SidsOfCons(table[0], table[1..]);
    assert [table[0]] + table[1..] == table;
    if sid in Stale(table[1..], cutoff) {
      StaleAreListed(table[1..], cutoff, sid);
    }
  }

  /** The expired ids are those of the sessions idle too long, each listed once. */
  lemma {:induction false} StaleMeansIdle(max: nat, table: Table, cutoff: int, i: nat)
    requires ValidTable(max, table) && i < |table|
    ensures table[i].sid in Stale(table, cutoff) <==> table[i].lastActiveMs < cutoff
  {
    ValidCons(max, table);
    var rest := table[1..];
    if table[0].sid in Stale(rest, cutoff) {
      StaleAreListed(rest, cutoff, table[0].sid);
    }
    if i > 0 {
      StaleMeansIdle(max, rest, cutoff, i - 1);
      assert Sids(rest)[i - 1] == table[i].sid;
    }
  }

  lemma {:induction false} StaleAreDistinct(max: nat, table: Table, cutoff: int)
    requires ValidTable(max, table)
    ensures NoDuplicates(Stale(table, cutoff))
  {
    if table != [] {
      ValidCons(max, table);
      StaleAreDistinct(max, table[1..], cutoff);
      if table[0].sid in Stale(table[1..], cutoff) {
        StaleAreListed(table[1..], cutoff, table[0].sid);
      }
    }
  }

  /** The next expired session is still there, and dropping it extends the drop by one. */
  lemma NextStale(max: nat, table: Table, cutoff: int, i: nat)
    requires ValidTable(max, table) && i < |Stale(table, cutoff)|
    ensures var stale := Stale(table, cutoff);
            && stale[i] in Sids(Dropped(table, stale[..i]))
            && Dropped(Dropped(table, stale[..i]), [stale[i]]) == Dropped(table, stale[..i + 1])
  {
    hide Dropped, Stale, Sids;
    var stale := Stale(table, cutoff);
    StaleAreDistinct(max, table, cutoff);
    StaleAreListed(table, cutoff, stale[i]);
    DroppedSids(table, stale[..i], stale[i]);
    DroppedTwice(table, stale[..i], [stale[i]]);
    assert stale[..i + 1] == stale[..i] + [stale[i]];
  }

  // ---- the cycle of ids

  function Successor(max: nat, sid: nat): nat {
    if sid + 1 > max then 1 else sid + 1
  }

  /** The id `k` steps after `start` in the cycle 1, 2, ..., max, 1, ... */
  function Cyclic(max: nat, start: nat, k: nat): (sid: nat)
    requires 1 <= start <= max
    ensures 1 <= sid <= max
  {
    if k == 0 then start else Successor(max, Cyclic(max, start, k - 1))
  }

  lemma {:induction false} CyclicIs(max: nat, start: nat, k: nat)
    requires 1 <= start <= max && k <= max
    ensures Cyclic(max, start, k) == if start + k <= max then start + k else start + k - max
  {
    if k > 0 {
      CyclicIs(max, start, k - 1);
    }
  }

  /** Probing visits every id within `max` steps. */
  lemma ProbeVisitsAll(max: nat, start: nat, sid: nat)
    requires 1 <= start <= max && 1 <= sid <= max
    ensures exists k: nat :: k < max && Cyclic(max, start, k) == sid
  {
    var k := if sid >= start then sid - start else max - start + sid;
    CyclicIs(max, start, k);
  }

  /** ... and no id twice. */
  lemma ProbeVisitsOnce(max: nat, start: nat, i: nat, j: nat)
    requires 1 <= start <= max && i < j < max
    ensures Cyclic(max, start, i) != Cyclic(max, start, j)
  {
    CyclicIs(max, start, i);
    CyclicIs(max, start, j);
  }

  /** Fewer than `max` distinct ids leave one of 1..max free. */
  lemma {:induction false} SomeIdIsFree(ids: seq<nat>, max: nat)
    requires NoDuplicates(ids) && |ids| < max
    ensures exists free: nat :: 1 <= free <= max && free !in ids
  {
    if max in ids {
      var i :| 0 <= i < |ids| && ids[i] == max;
      var others := ids[..i] + ids[i + 1..];
      assert forall x :: x in ids ==> x == max || x in others;
      SomeIdIsFree(others, max - 1);
      var free: nat :| 1 <= free <= max - 1 && free !in others;
      assert free !in ids;
    }
  }

  /** A valid table never holds more than `max` sessions. */
  lemma {:induction false} AtMostMax(ids: seq<nat>, max: nat)
    requires NoDuplicates(ids) && forall i :: 0 <= i < |ids| ==> 1 <= ids[i] <= max
    ensures |ids| <= max
  {
    assert ids != [] ==> 1 <= ids[0] <= max;
    if max in ids {
      var i :| 0 <= i < |ids| && ids[i] == max;
      var others := ids[..i] + ids[i + 1..];
      assert forall j :: 0 <= j < |others| ==> 1 <= others[j] <= max - 1;
      AtMostMax(others, max - 1);
    } else if max > 0 {
      AtMostMax(ids, max - 1);
    }
  }

  ghost predicate AllTaken(max: nat, table: Table, start: nat, n: nat)
    requires 1 <= start <= max
  {
    forall j: nat :: j < n ==> Cyclic(max, start, j) in Sids(table)
  }

  /** `sid` is the first free id from `start` on. */
  ghost predicate IsFirstFree(max: nat, table: Table, start: nat, sid: nat)
    requires 1 <= start <= max
  {
    && sid !in Sids(table)
    && exists k: nat :: k < max && sid == Cyclic(max, start, k) && AllTaken(max, table, start, k)
  }

  /** A table with room is not all taken: the probing loop always returns. */
  lemma RoomMeansFree(max: nat, table: Table, start: nat)
    requires ValidTable(max, table) && |table| < max && 1 <= start <= max
    ensures !AllTaken(max, table, start, max)
  {
    SomeIdIsFree(Sids(table), max);
    var free: nat :| 1 <= free <= max && free !in Sids(table);
    ProbeVisitsAll(max, start, free);
  }

  /** The first of the least recently active sessions. */
  ghost predicate IsLeastRecent(table: Table, sid: nat) {
    exists i :: 0 <= i < |table| && table[i].sid == sid
      && (forall j :: 0 <= j < |table| ==> table[i].lastActiveMs <= table[j].lastActiveMs)
      && (forall j :: 0 <= j < i ==> table[i].lastActiveMs < table[j].lastActiveMs)
  }

  /** Who goes for a new session: the idle ones, and if that is not enough the least recently active one. */
  ghost predicate MadeRoom(table: Table, cutoff: int, max: nat, evicted: seq<nat>) {
    var alive := Dropped(table, Stale(table, cutoff));
    if |alive| < max then evicted == [] else |evicted| == 1 && IsLeastRecent(alive, evicted[0])
  }

  /** The same for an id that was asked for: a session already there under it gives way. */
  ghost predicate MadeRoomFor(table: Table, cutoff: int, max: nat, sid: nat, evicted: seq<nat>) {
    if sid in Sids(Dropped(table, Stale(table, cutoff))) then evicted == [sid]
    else MadeRoom(table, cutoff, max, evicted)
  }

  /** The sessions that stay. */
  function Staying(table: Table, cutoff: int, evicted: seq<nat>): Table {
    Dropped(Dropped(table, Stale(table, cutoff)), evicted)
  }

  lemma NoticesNothing(said: seq<Notice>, status: Status)
    ensures said + Notices([], status) == said
  {
  }

  lemma NoticesSnoc(said: seq<Notice>, sids: seq<nat>, i: nat, status: Status)
    requires i < |sids|
    ensures said + Notices(sids[..i + 1], status) == said + Notices(sids[..i], status) + [Notice(sids[i], status)]
  {
  }

  lemma NoticesOne(sid: nat, status: Status)
    ensures Notices([sid], status) == [Notice(sid, status)]
  {
  }

  class SessionManager {
    const max: nat
    const ttlMs: int
    var sessions: Table
    var nextSid: nat
    var notices: seq<Notice>
    ghost var granted: seq<nat>

    /**
     * Live ids are distinct and in 1..max; every grant ever made is still live or
     * was reported to the callback, exactly once.
     */
    ghost predicate Valid()
      reads this
    {
      && 1 <= max <= 0xFFFF
      && 1 <= nextSid <= max
      && ValidTable(max, sessions)
      && multiset(granted) == multiset(NoticedSids(notices)) + multiset(Sids(sessions))
    }

    constructor (maxSessions: nat, ttlSeconds: int)
      requires 1 <= maxSessions <= 0xFFFF
      ensures Valid() && max == maxSessions && ttlMs == ttlSeconds * 1000
      ensures sessions == [] && notices == [] && granted == []
    {
      max, ttlMs := maxSessions, ttlSeconds * 1000;
      sessions, nextSid, notices, granted := [], 1, [], [];
    }

    method InvalidateLocked(sid: nat, status: Status)
      requires Valid() && sid in Sids(sessions)
      modifies `sessions, `notices
      ensures Valid()
      ensures sessions == Dropped(old(sessions), [sid])
      ensures |sessions| == |old(sessions)| - 1
      ensures notices == old(notices) + [Notice(sid, status)]
    {
      DropOneCounts(max, sessions, sid);
      DroppedStaysValid(max, sessions, [sid]);
      assert NoticedSids(notices + [Notice(sid, status)]) == NoticedSids(notices) + [sid];
      sessions := Dropped(sessions, [sid]);
      notices := notices + [Notice(sid, status)];
    }

    /** Exactly the sessions idle for longer than the time to live go, each reported once. */
    method ReapExpiredLocked(now: int) returns (expired: seq<nat>)
      requires Valid()
      modifies `sessions, `notices
      ensures Valid()
      ensures expired == Stale(old(sessions), now - ttlMs)
      ensures sessions == Dropped(old(sessions), expired)
      ensures notices == old(notices) + Notices(expired, Status.Expired)
    {
      var cutoff := now - ttlMs;
      ghost var before, said := sessions, notices;
      expired := Stale(sessions, cutoff);
      DroppedNone(sessions, []);
      hide Dropped, Stale, Sids, Notices, NoticedSids, ValidTable;
      NoticesNothing(said, Status.Expired);
      for i := 0 to |expired|
        invariant Valid()
        invariant sessions == Dropped(before, expired[..i])
        invariant notices == said + Notices(expired[..i], Status.Expired)
      {
        NextStale(max, before, cutoff, i);
        InvalidateLocked(expired[i], Status.Expired);
        NoticesSnoc(said, expired, i, Status.Expired);
      }
      assert expired[..|expired|] == expired;
    }

    method PickLruLocked() returns (victim: Option<nat>)
      ensures victim.None? <==> sessions == []
      ensures victim.Some? ==> IsLeastRecent(sessions, victim.value)
    {
      if sessions == [] {
        return None;
      }
      var best := 0;
      for i := 1 to |sessions|
        invariant 0 <= best < |sessions|
        invariant forall j :: 0 <= j < i ==> sessions[best].lastActiveMs <= sessions[j].lastActiveMs
        invariant forall j :: 0 <= j < best ==> sessions[best].lastActiveMs < sessions[j].lastActiveMs
      {
        if sessions[i].lastActiveMs < sessions[best].lastActiveMs {
          best := i;
        }
      }
      victim := Some(sessions[best].sid);
    }

    method AdvanceNextSidLocked()
      modifies `nextSid
      ensures nextSid == Successor(max, old(nextSid))
    {
      nextSid := nextSid + 1;
      if nextSid > max {
        nextSid := 1;
      }
    }

    /** Finds the first free id; the error for an exhausted pool cannot happen. */
    method AllocateSidLocked() returns (sid: nat)
      requires Valid() && |sessions| < max
      modifies `nextSid
      ensures Valid()
      ensures IsFirstFree(max, sessions, old(nextSid), sid)
      ensures nextSid == Successor(max, sid)
    {
      ghost var start := nextSid;
      for i := 0 to max
        invariant nextSid == Cyclic(max, start, i)
        invariant AllTaken(max, sessions, start, i)
      {
        var candidate := nextSid;
        AdvanceNextSidLocked();
        if candidate !in Sids(sessions) {
          return candidate;
        }
      }
      RoomMeansFree(max, sessions, start);
      assert false;
    }

    /** A full pool gives up its least recently active session. */
    method EvictLruLocked() returns (evicted: seq<nat>)
      requires Valid() && |sessions| == max
      modifies `sessions, `notices
      ensures Valid() && |sessions| < max
      ensures |evicted| == 1 && IsLeastRecent(old(sessions), evicted[0])
      ensures sessions == Dropped(old(sessions), evicted)
      ensures notices == old(notices) + Notices(evicted, Status.Reclaimed)
    {
      var victim := PickLruLocked();
      if victim.None? {
        assert false; // the pool-full answer
      }
      HasVictim(sessions, victim.value);
      hide Dropped, IsLeastRecent, ValidTable;
      InvalidateLocked(victim.value, Status.Reclaimed);
      evicted := [victim.value];
      NoticesOne(victim.value, Status.Reclaimed);
    }

    method AddLocked(sid: nat, plugin: string, cwd: string, clock: int)
      requires Valid() && 1 <= sid <= max && sid !in Sids(sessions)
      modifies `sessions, `granted
      ensures Valid()
      ensures sessions == old(sessions) + [Session(sid, plugin, cwd, clock, clock)]
      ensures granted == old(granted) + [sid]
    {
      AddedStaysValid(max, sessions, Session(sid, plugin, cwd, clock, clock));
      hide ValidTable, Sids, NoticedSids;
      sessions := sessions + [Session(sid, plugin, cwd, clock, clock)];
      granted := granted + [sid];
    }

    /**
     * A request always succeeds: after expiry, a full pool gives up its least
     * recently active session, and the first free id in the cycle is granted.
     */
    method RequestSession(plugin: string, cwd: string, reapClock: int, clock: int)
      returns (sid: nat, status: Status, evicted: seq<nat>)
      requires Valid()
      modifies this
      ensures Valid()
      ensures status == Status.Created
      ensures var cutoff := reapClock - ttlMs;
              && MadeRoom(old(sessions), cutoff, max, evicted)
              && 1 <= old(nextSid) <= max
              && IsFirstFree(max, Staying(old(sessions), cutoff, evicted), old(nextSid), sid)
              && sessions == Staying(old(sessions), cutoff, evicted) + [Session(sid, plugin, cwd, clock, clock)]
              && notices == old(notices) + Notices(Stale(old(sessions), cutoff), Status.Expired)
                            + Notices(evicted, Status.Reclaimed)
      ensures nextSid == Successor(max, sid)
      ensures granted == old(granted) + [sid]
    {
      ghost var expired := ReapExpiredLocked(reapClock);
      evicted := [];
      DroppedNone(sessions, []);
      NoticesNothing(notices, Status.Reclaimed);
      TableFits(max, sessions);
      hide Dropped, Stale, Sids, Notices, NoticedSids, ValidTable, IsLeastRecent, IsFirstFree, Valid, Successor;
      if |sessions| >= max {
        evicted := EvictLruLocked();
      }
      sid := AllocateSidLocked();
      FirstFreeIsFree(max, sessions, old(nextSid), sid);
      AddLocked(sid, plugin, cwd, clock);
      status := Status.Created;
    }

    /** The board's own choice of id: out of range it is refused, otherwise it always succeeds. */
    method AdoptSession(sid: nat, plugin: string, cwd: string, reapClock: int, clock: int)
      returns (r: nat, status: Status, evicted: seq<nat>)
      requires Valid()
      modifies this
      ensures Valid()
      ensures nextSid == if 1 <= sid <= max then Successor(max, old(nextSid)) else old(nextSid)
      ensures !(1 <= sid <= max) ==>
                r == 0 && status == Status.Invalid && evicted == []
                && sessions == old(sessions) && notices == old(notices) && granted == old(granted)
      ensures 1 <= sid <= max ==>
                var cutoff := reapClock - ttlMs;
                && r == sid && status == Status.Created
                && MadeRoomFor(old(sessions), cutoff, max, sid, evicted)
                && sid !in Sids(Staying(old(sessions), cutoff, evicted))
                && sessions == Staying(old(sessions), cutoff, evicted) + [Session(sid, plugin, cwd, clock, clock)]
                && notices == old(notices) + Notices(Stale(old(sessions), cutoff), Status.Expired)
                              + Notices(evicted, Status.Reclaimed)
                && granted == old(granted) + [sid]
    {
      if sid <= 0 || sid > max {
        return 0, Status.Invalid, [];
      }
      ghost var expired := ReapExpiredLocked(reapClock);
      evicted := [];
      ghost var alive := sessions;
      DroppedNone(sessions, []);
      NoticesNothing(notices, Status.Reclaimed);
      NoticesOne(sid, Status.Reclaimed);
      TableFits(max, sessions);
      hide Dropped, Stale, Sids, Notices, NoticedSids, ValidTable, IsLeastRecent, IsFirstFree, Successor;
      if sid in Sids(sessions) {
        InvalidateLocked(sid, Status.Reclaimed);
        evicted := [sid];
      } else if |sessions| >= max {
        evicted := EvictLruLocked();
      }
      DroppedSids(alive, evicted, sid);
      AddLocked(sid, plugin, cwd, clock);
      AdvanceNextSidLocked();
      SuccessorInRange(max, old(nextSid));
      r, status := sid, Status.Created;
    }

    method Touch(sid: nat, clock: int) returns (known: bool)
      requires Valid()
      modifies `sessions
      ensures Valid()
      ensures known == (sid in old(Sids(sessions)))
      ensures sessions == Touched(old(sessions), sid, clock)
    {
      known := sid in Sids(sessions);
      if known {
        TouchedStaysValid(max, sessions, sid, clock);
        sessions := Touched(sessions, sid, clock);
      } else {
        TouchedUnknown(sessions, sid, clock);
      }
    }

    method Invalidate(sid: nat, status: Status) returns (known: bool)
      requires Valid()
      modifies `sessions, `notices
      ensures Valid()
      ensures known == (sid in old(Sids(sessions)))
      ensures sessions == Dropped(old(sessions), [sid])
      ensures notices == old(notices) + if known then [Notice(sid, status)] else []
    {
      if sid !in Sids(sessions) {
        DroppedNone(sessions, [sid]);
        return false;
      }
      InvalidateLocked(sid, status);
      known := true;
    }

    method ReapExpired(now: int) returns (expired: seq<nat>)
      requires Valid()
      modifies `sessions, `notices
      ensures Valid()
      ensures expired == Stale(old(sessions), now - ttlMs)
      ensures sessions == Dropped(old(sessions), expired)
      ensures notices == old(notices) + Notices(expired, Status.Expired)
    {
      expired := ReapExpiredLocked(now);
    }
  }

  lemma FirstFreeIsFree(max: nat, table: Table, start: nat, sid: nat)
    requires 1 <= start <= max && IsFirstFree(max, table, start, sid)
    ensures sid !in Sids(table) && 1 <= sid <= max
  {
  }

  lemma TableFits(max: nat, table: Table)
    requires ValidTable(max, table)
    ensures |table| <= max
  {
    AtMostMax(Sids(table), max);
  }

  lemma SuccessorInRange(max: nat, sid: nat)
    requires 1 <= sid <= max
    ensures 1 <= Successor(max, sid) <= max
  {
  }

  lemma HasVictim(table: Table, victim: nat)
    requires IsLeastRecent(table, victim)
    ensures victim in Sids(table)
  {
    var i :| 0 <= i < |table| && table[i].sid == victim;
    assert Sids(table)[i] == victim;
  }

  lemma AddedStaysValid(max: nat, table: Table, s: Session)
    requires ValidTable(max, table) && 1 <= s.sid <= max && s.sid !in Sids(table)
    ensures ValidTable(max, table + [s])
    ensures Sids(table + [s]) == Sids(table) + [s.sid]
  {
    assert Sids(table + [s]) == Sids(table) + [s.sid];
  }

  lemma TouchedStaysValid(max: nat, table: Table, sid: nat, now: int)
    requires ValidTable(max, table)
    ensures ValidTable(max, Touched(table, sid, now))
  {
    assert Sids(Touched(table, sid, now)) == Sids(table);
  }

  /** Output renews a session's activity time and changes no other. */
  lemma TouchRenews(table: Table, sid: nat, now: int, i: nat)
    requires i < |table|
    ensures |Touched(table, sid, now)| == |table|
    ensures Touched(table, sid, now)[i] == if table[i].sid == sid then table[i].(lastActiveMs := now) else table[i]
  {
    assert Sids(Touched(table, sid, now)) == Sids(table);
  }

  /** So a session outlives its last output by the time to live. */
  lemma TouchedOutlives(max: nat, table: Table, sid: nat, now: int, cutoff: int)
    requires ValidTable(max, table) && sid in Sids(table)
    ensures sid in Stale(Touched(table, sid, now), cutoff) <==> now < cutoff
  {
    var i :| 0 <= i < |table| && Sids(table)[i] == sid;
    TouchedStaysValid(max, table, sid, now);
    TouchRenews(table, sid, now, i);
    StaleMeansIdle(max, Touched(table, sid, now), cutoff, i);
    hide Touched, Stale, ValidTable;
    assert Touched(table, sid, now)[i].sid == sid;
  }

  lemma TouchedUnknown(table: Table, sid: nat, now: int)
    requires sid !in Sids(table)
    ensures Touched(table, sid, now) == table
  {
    assert forall i :: 0 <= i < |table| ==> table[i].sid == Sids(table)[i] != sid;
  }
}

/**
 * Matching of discovered agent transcripts to live agent processes: newest
 * transcript first, each takes the first free process slot of its kind whose
 * working directory lies on the same branch of the directory tree.
 */
module AgentMatching {
  import opened Wrappers
  import opened Sequences

  datatype AgentKind = Claude | Codex | Terminal | Unrecognized

  datatype AgentStatus = Running | WaitingInput | Idle | Done | Error | Unknown

  /**
   * `agentId` numbers the agent ids in their order. `age` orders transcripts as
   * modification time and path do: the newest has the smallest. `recent` says
   * that it was modified within the last two hours.
   */
  datatype Session = Session(
    kind: AgentKind, agentId: nat, cwd: string, status: AgentStatus, age: nat, recent: bool)

  /** A live process, its directory normalised. */
  datatype Slot = Slot(kind: AgentKind, cwd: string)

  // ---- directories

  function TrimEnd(s: string): string {
    if s != "" && (s[|s| - 1] == '/' || s[|s| - 1] == '\\') then TrimEnd(s[..|s| - 1]) else s
  }

  function Slashes(s: string): (r: string)
    ensures |r| == |s|
  {
    seq(|s|, i requires 0 <= i < |s| => if s[i] == '\\' then '/' else s[i])
  }

  function NormalizeCwd(cwd: string): string {
    Slashes(TrimEnd(cwd))
  }

  function WithSep(s: string): string {
    if s != "" && s[|s| - 1] == '/' then s else s + "/"
  }

  predicate CwdPrefixMatches(sessCwd: string, procCwd: string) {
    sessCwd == procCwd || WithSep(procCwd) <= WithSep(sessCwd) || WithSep(sessCwd) <= WithSep(procCwd)
  }

  lemma CwdPrefixMatchesIsTolerant(a: string, b: string)
    ensures CwdPrefixMatches(a, a)
    ensures CwdPrefixMatches(a, b) <==> CwdPrefixMatches(b, a)
  {
  }

  predicate IsNormal(cwd: string) {
    (cwd == "" || cwd[|cwd| - 1] != '/') && '\\' !in cwd
  }

  lemma {:induction false} TrimEndTrims(s: string)
    ensures var t := TrimEnd(s); t <= s && (t == "" || (t[|t| - 1] != '/' && t[|t| - 1] != '\\'))
  {
    if s != "" && (s[|s| - 1] == '/' || s[|s| - 1] == '\\') {
      TrimEndTrims(s[..|s| - 1]);
    }
  }

  /** A normalised directory has no backslash and no separator at its end; normalising again changes nothing. */
  lemma NormalizedIsNormal(cwd: string)
    ensures IsNormal(NormalizeCwd(cwd))
    ensures IsNormal(cwd) ==> NormalizeCwd(cwd) == cwd
  {
    TrimEndTrims(cwd);
  }

  /** The components of a path: what lies between its separators. */
  function Components(s: string): (parts: seq<string>)
    ensures parts != []
    ensures forall i :: 0 <= i < |parts| ==> '/' !in parts[i]
  {
    if s == "" then [""]
    else
      var rest := Components(s[1..]);
      if s[0] == '/' then [""] + rest else [[s[0]] + rest[0]] + rest[1..]
  }

  /** The components, each followed by a separator. */
  function Terminated(parts: seq<string>): string {
    if parts == [] then "" else parts[0] + "/" + Terminated(parts[1..])
  }

  lemma {:induction false} TerminatedComponents(s: string)
    ensures Terminated(Components(s)) == s + "/"
  {
    if s != "" {
      var rest := Components(s[1..]);
      TerminatedComponents(s[1..]);
      assert [s[0]] + s[1..] == s;
      if s[0] == '/' {
        assert Components(s)[1..] == rest;
      } else {
        assert Components(s)[1..] == rest[1..];
        assert [s[0]] + rest[0] + "/" + Terminated(rest[1..]) == [s[0]] + (rest[0] + "/" + Terminated(rest[1..]));
      }
    }
  }

  lemma {:induction false} PrefixOfComponents(a: seq<string>, b: seq<string>)
    requires forall i :: 0 <= i < |a| ==> '/' !in a[i]
    requires forall i :: 0 <= i < |b| ==> '/' !in b[i]
    ensures Terminated(a) <= Terminated(b) <==> a <= b
  {
    if a == [] {
      return;
    }
    if b == [] {
      assert |Terminated(a)| > 0;
      return;
    }
    PrefixOfComponents(a[1..], b[1..]);
    HeadsAgree(a[0], Terminated(a[1..]), b[0], Terminated(b[1..]));
    hide Terminated;
    assert a == [a[0]] + a[1..] && b == [b[0]] + b[1..];
  }

  /** Up to the first separator, a prefix determines the component. */
  lemma HeadsAgree(x: string, more: string, y: string, rest: string)
    requires '/' !in x && '/' !in y
    ensures x + "/" + more <= y + "/" + rest <==> x == y && more <= rest
  {
    var s, t := x + "/" + more, y + "/" + rest;
    if s <= t {
      assert s[|x|] == '/' && t[|y|] == '/';
      assert t[|x|] == '/';
      assert |x| == |y|;
      assert forall i :: 0 <= i < |x| ==> x[i] == s[i] == t[i] == y[i];
      assert forall i :: 0 <= i < |more| ==> more[i] == s[|x| + 1 + i] == t[|x| + 1 + i] == rest[i];
    }
  }

  /** On normalised directories: one is an ancestor of the other, component by component, or the same. */
  lemma MatchesIffSameBranch(a: string, b: string)
    requires IsNormal(a) && IsNormal(b)
    ensures CwdPrefixMatches(a, b) <==> Components(a) <= Components(b) || Components(b) <= Components(a)
  {
    TerminatedComponents(a);
    TerminatedComponents(b);
    PrefixOfComponents(Components(a), Components(b));
    PrefixOfComponents(Components(b), Components(a));
    hide Components, Terminated;
  }

  // ---- sorting

  const AGE: Session -> int := (session: Session) => session.age

  const ID_DESCENDING: Session -> int := (session: Session) => 0 - session.agentId

  ghost predicate Ascending(key: Session -> int, sessions: seq<Session>) {
    forall i, j :: 0 <= i < j < |sessions| ==> key(sessions[i]) <= key(sessions[j])
  }

  function Insert(key: Session -> int, session: Session, sorted: seq<Session>): seq<Session> {
    if sorted == [] || key(session) <= key(sorted[0]) then [session] + sorted
    else [sorted[0]] + Insert(key, session, sorted[1..])
  }

  /** A stable sort. */
  function SortBy(key: Session -> int, sessions: seq<Session>): seq<Session> {
    if sessions == [] then [] else Insert(key, sessions[0], SortBy(key, sessions[1..]))
  }

  lemma {:induction false} InsertKeeps(key: Session -> int, session: Session, sorted: seq<Session>)
    ensures multiset(Insert(key, session, sorted)) == multiset{session} + multiset(sorted)
    ensures forall s :: s in Insert(key, session, sorted) <==> s == session || s in sorted
  {
    if sorted != [] && key(session) > key(sorted[0]) {
      InsertKeeps(key, session, sorted[1..]);
    }
    if sorted != [] {
      assert sorted == [sorted[0]] + sorted[1..];
    }
  }

  lemma AscendingCons(key: Session -> int, first: Session, rest: seq<Session>)
    requires Ascending(key, rest) && forall s :: s in rest ==> key(first) <= key(s)
    ensures Ascending(key, [first] + rest)
  {
  }

  lemma {:induction false} InsertSorts(key: Session -> int, session: Session, sorted: seq<Session>)
    requires Ascending(key, sorted)
    ensures Ascending(key, Insert(key, session, sorted))
  {
    if sorted != [] && key(session) > key(sorted[0]) {
      InsertSorts(key, session, sorted[1..]);
      InsertKeeps(key, session, sorted[1..]);
      AscendingCons(key, sorted[0], Insert(key, session, sorted[1..]));
    } else {
      AscendingCons(key, session, sorted);
    }
  }

  /** The sessions with a given key, in their order. */
  function WithKey(key: Session -> int, k: int, sessions: seq<Session>): seq<Session> {
    if sessions == [] then []
    else (if key(sessions[0]) == k then [sessions[0]] else []) + WithKey(key, k, sessions[1..])
  }

  lemma {:induction false} InsertIsStable(key: Session -> int, session: Session, sorted: seq<Session>, k: int)
    ensures WithKey(key, k, Insert(key, session, sorted)) ==
              (if key(session) == k then [session] else []) + WithKey(key, k, sorted)
  {
    if sorted != [] && key(session) > key(sorted[0]) {
      InsertIsStable(key, session, sorted[1..], k);
    }
  }

  /** A permutation in the order of the keys that keeps the order of equal ones. */
  lemma {:induction false} SortSorts(key: Session -> int, sessions: seq<Session>)
    ensures Ascending(key, SortBy(key, sessions))
    ensures multiset(SortBy(key, sessions)) == multiset(sessions)
    ensures forall k :: WithKey(key, k, SortBy(key, sessions)) == WithKey(key, k, sessions)
  {
    if sessions == [] {
      return;
    }
    hide Ascending, Insert;
    SortSorts(key, sessions[1..]);
    var rest := SortBy(key, sessions[1..]);
    InsertSorts(key, sessions[0], rest);
    InsertKeeps(key, sessions[0], rest);
    forall k ensures WithKey(key, k, SortBy(key, sessions)) == WithKey(key, k, sessions) {
      InsertIsStable(key, sessions[0], rest, k);
    }
    hide WithKey;
    assert sessions == [sessions[0]] + sessions[1..];
  }

  // ---- one entry per agent

  predicate SameAgent(a: Session, b: Session) {
    a.kind == b.kind && a.agentId == b.agentId
  }

  /** Of neighbours that belong to the same agent the first stays. */
  function Dedup(sessions: seq<Session>): seq<Session>
    decreases |sessions|
  {
    if |sessions| < 2 then sessions
    else if SameAgent(sessions[1], sessions[0]) then Dedup([sessions[0]] + sessions[2..])
    else [sessions[0]] + Dedup(sessions[1..])
  }

  function SortAndDedup(sessions: seq<Session>): seq<Session> {
    Dedup(SortBy(ID_DESCENDING, sessions))
  }

  ghost predicate Lists(sessions: seq<Session>, agent: Session) {
    exists i :: 0 <= i < |sessions| && SameAgent(sessions[i], agent)
  }

  /** No agent has two entries. */
  ghost predicate OneEach(sessions: seq<Session>) {
    forall i, j :: 0 <= i < j < |sessions| ==> !SameAgent(sessions[i], sessions[j])
  }

  /** What lies between two entries of an agent is an entry of that agent. */
  ghost predicate Grouped(sessions: seq<Session>) {
    forall i, j, k :: 0 <= i < j < k < |sessions| && SameAgent(sessions[i], sessions[k]) ==>
      SameAgent(sessions[i], sessions[j])
  }

  lemma ListsCons(first: Session, rest: seq<Session>, agent: Session)
    ensures Lists([first] + rest, agent) <==> SameAgent(first, agent) || Lists(rest, agent)
  {
    var all := [first] + rest;
    if SameAgent(first, agent) {
      assert all[0] == first;
    } else if Lists(rest, agent) {
      var i :| 0 <= i < |rest| && SameAgent(rest[i], agent);
      assert all[i + 1] == rest[i];
    }
  }

  lemma {:induction false} DedupLists(sessions: seq<Session>, agent: Session)
    ensures Lists(Dedup(sessions), agent) <==> Lists(sessions, agent)
    decreases |sessions|
  {
    if |sessions| < 2 {
      return;
    }
    hide Lists;
    assert sessions == [sessions[0]] + sessions[1..];
    ListsCons(sessions[0], sessions[1..], agent);
    if SameAgent(sessions[1], sessions[0]) {
      assert sessions[1..] == [sessions[1]] + sessions[2..];
      ListsCons(sessions[1], sessions[2..], agent);
      ListsCons(sessions[0], sessions[2..], agent);
      DedupLists([sessions[0]] + sessions[2..], agent);
    } else {
      DedupLists(sessions[1..], agent);
      ListsCons(sessions[0], Dedup(sessions[1..]), agent);
    }
  }

  lemma OneEachCons(first: Session, rest: seq<Session>)
    ensures OneEach([first] + rest) <==> OneEach(rest) && !Lists(rest, first)
  {
    var all := [first] + rest;
    assert all[0] == first && forall i :: 0 <= i < |rest| ==> all[i + 1] == rest[i];
  }

  lemma GroupedSkip(sessions: seq<Session>)
    requires |sessions| >= 2 && SameAgent(sessions[1], sessions[0])
    ensures Grouped(sessions) <==> Grouped([sessions[0]] + sessions[2..])
  {
    var shorter := [sessions[0]] + sessions[2..];
    assert shorter[0] == sessions[0] && forall i :: 1 <= i < |shorter| ==> shorter[i] == sessions[i + 1];
    assert forall i :: 2 <= i < |sessions| ==> sessions[i] == shorter[i - 1];
    if Grouped(shorter) {
      forall i, j, k | 0 <= i < j < k < |sessions| && SameAgent(sessions[i], sessions[k])
        ensures SameAgent(sessions[i], sessions[j])
      {
        if j >= 2 {
          assert SameAgent(shorter[if i == 0 then 0 else i - 1], shorter[j - 1]);
        }
      }
    }
  }

  lemma GroupedCons(sessions: seq<Session>)
    requires |sessions| >= 2 && !SameAgent(sessions[1], sessions[0])
    ensures Grouped(sessions) <==> Grouped(sessions[1..]) && !Lists(sessions[1..], sessions[0])
  {
    var rest := sessions[1..];
    assert forall i :: 0 <= i < |rest| ==> rest[i] == sessions[i + 1];
    assert forall i :: 1 <= i < |sessions| ==> sessions[i] == rest[i - 1];
  }

  /** One entry per agent is left exactly when the entries of each agent follow one another. */
  lemma {:induction false} DedupLeavesOneEachIff(sessions: seq<Session>)
    ensures OneEach(Dedup(sessions)) <==> Grouped(sessions)
    decreases |sessions|
  {
    if |sessions| < 2 {
      return;
    }
    hide OneEach, Grouped, Lists;
    if SameAgent(sessions[1], sessions[0]) {
      GroupedSkip(sessions);
      DedupLeavesOneEachIff([sessions[0]] + sessions[2..]);
    } else {
      GroupedCons(sessions);
      DedupLeavesOneEachIff(sessions[1..]);
      OneEachCons(sessions[0], Dedup(sessions[1..]));
      DedupLists(sessions[1..], sessions[0]);
    }
  }

  /** Ids in descending order whose kinds agree are grouped. */
  lemma SortedIsGrouped(sessions: seq<Session>)
    requires Ascending(ID_DESCENDING, sessions)
    requires forall a, b :: a in sessions && b in sessions && a.agentId == b.agentId ==> a.kind == b.kind
    ensures Grouped(sessions)
  {
    forall i, j, k | 0 <= i < j < k < |sessions| && SameAgent(sessions[i], sessions[k])
      ensures SameAgent(sessions[i], sessions[j])
    {
      assert ID_DESCENDING(sessions[i]) <= ID_DESCENDING(sessions[j]) <= ID_DESCENDING(sessions[k]);
      assert sessions[i] in sessions && sessions[j] in sessions;
    }
  }

  /**
   * Exactly the agents given are listed; and each once when no id is used under
   * two kinds.
   */
  lemma SortAndDedupListsAgents(sessions: seq<Session>)
    ensures forall agent :: Lists(SortAndDedup(sessions), agent) <==> Lists(sessions, agent)
    ensures (forall a, b :: a in sessions && b in sessions && a.agentId == b.agentId ==> a.kind == b.kind) ==>
              OneEach(SortAndDedup(sessions))
  {
    hide Dedup, SortBy, OneEach, Grouped;
    var sorted := SortBy(ID_DESCENDING, sessions);
    SortSorts(ID_DESCENDING, sessions);
    SameMembers(sorted, sessions);
    forall agent ensures Lists(SortAndDedup(sessions), agent) <==> Lists(sessions, agent) {
      DedupLists(sorted, agent);
    }
    DedupLeavesOneEachIff(sorted);
    if forall a, b :: a in sessions && b in sessions && a.agentId == b.agentId ==> a.kind == b.kind {
      SortedIsGrouped(sorted);
    }
  }

  lemma SameMembers(a: seq<Session>, b: seq<Session>)
    requires multiset(a) == multiset(b)
    ensures forall s :: s in a <==> s in b
    ensures forall agent :: Lists(a, agent) <==> Lists(b, agent)
  {
    assert forall s :: s in a <==> s in multiset(a);
    assert forall s :: s in b <==> s in multiset(b);
    forall agent ensures Lists(a, agent) <==> Lists(b, agent) {
      if Lists(a, agent) {
        var i :| 0 <= i < |a| && SameAgent(a[i], agent);
        assert a[i] in b;
      }
      if Lists(b, agent) {
        var i :| 0 <= i < |b| && SameAgent(b[i], agent);
        assert b[i] in a;
      }
    }
  }

  /** For example, an id that two kinds share may keep two entries of one agent. */
  lemma SharedIdKeepsTwo(a: Session, b: Session, c: Session)
    requires a.agentId == b.agentId == c.agentId && a.kind == c.kind != b.kind
    ensures SortAndDedup([a, b, c]) == [a, b, c]
  {
    var key := ID_DESCENDING;
    assert SortBy(key, [a, b, c][1..][1..][1..]) == [];
    assert SortBy(key, [a, b, c][1..][1..]) == [c];
    assert SortBy(key, [a, b, c][1..]) == Insert(key, b, [c]) == [b, c];
    assert SortBy(key, [a, b, c]) == Insert(key, a, [b, c]) == [a, b, c];
    assert Dedup([a, b, c][1..]) == [b, c];
  }

  // ---- the assignment

  predicate Fits(session: Session, slot: Slot) {
    slot.kind == session.kind && CwdPrefixMatches(NormalizeCwd(session.cwd), slot.cwd)
  }

  function FirstFit(session: Session, slots: seq<Slot>): (pos: Option<nat>)
    ensures pos.Some? ==> pos.value < |slots| && Fits(session, slots[pos.value])
    ensures pos.Some? ==> forall i :: 0 <= i < pos.value ==> !Fits(session, slots[i])
    ensures pos.None? ==> forall i :: 0 <= i < |slots| ==> !Fits(session, slots[i])
  {
    if slots == [] then None
    else if Fits(session, slots[0]) then Some(0)
    else
      match FirstFit(session, slots[1..])
      case Some(i) => Some(i + 1)
      case None => None
  }

  /** The last slot takes the place of the removed one. */
  function SwapRemove(slots: seq<Slot>, pos: nat): seq<Slot>
    requires pos < |slots|
  {
    slots[pos := slots[|slots| - 1]][..|slots| - 1]
  }

  datatype Match = Match(index: nat, slot: Slot)

  function Assign(sessions: seq<Session>, at: nat, slots: seq<Slot>): seq<Match>
    requires at <= |sessions|
    decreases |sessions| - at
  {
    if at == |sessions| then []
    else
      match FirstFit(sessions[at], slots)
      case None => Assign(sessions, at + 1, slots)
      case Some(pos) => [Match(at, slots[pos])] + Assign(sessions, at + 1, SwapRemove(slots, pos))
  }

  lemma SwapRemoveKeepsOthers(slots: seq<Slot>, pos: nat)
    requires pos < |slots| && NoDuplicates(slots)
    ensures NoDuplicates(SwapRemove(slots, pos))
    ensures forall s :: s in SwapRemove(slots, pos) <==> s in slots && s != slots[pos]
  {
    var rest := SwapRemove(slots, pos);
    assert forall i :: 0 <= i < |rest| ==> rest[i] == if i == pos then slots[|slots| - 1] else slots[i];
    forall s | s in slots && s != slots[pos] ensures s in rest {
      var i :| 0 <= i < |slots| && slots[i] == s;
      assert rest[if i == |slots| - 1 then pos else i] == s;
    }
  }

  /** Everything said about the assignment of the candidates from `at` on. */
  ghost predicate IsGreedy(sessions: seq<Session>, at: nat, slots: seq<Slot>, matches: seq<Match>) {
    && (forall i, j :: 0 <= i < j < |matches| ==>
          matches[i].index < matches[j].index && matches[i].slot != matches[j].slot)
    && (forall i :: 0 <= i < |matches| ==>
          && at <= matches[i].index < |sessions|
          && matches[i].slot in slots
          && Fits(sessions[matches[i].index], matches[i].slot))
  }

  ghost predicate IsTaken(matches: seq<Match>, slot: Slot, before: nat) {
    exists i :: 0 <= i < |matches| && matches[i].slot == slot && matches[i].index < before
  }

  ghost predicate IsMatched(matches: seq<Match>, index: nat) {
    exists i :: 0 <= i < |matches| && matches[i].index == index
  }

  lemma {:induction false} AssignIsGreedy(sessions: seq<Session>, at: nat, slots: seq<Slot>)
    requires at <= |sessions| && NoDuplicates(slots)
    ensures IsGreedy(sessions, at, slots, Assign(sessions, at, slots))
    decreases |sessions| - at
  {
    if at == |sessions| {
      return;
    }
    hide Fits, SwapRemove;
    match FirstFit(sessions[at], slots)
    case None => AssignIsGreedy(sessions, at + 1, slots);
    case Some(pos) =>
      SwapRemoveKeepsOthers(slots, pos);
      AssignIsGreedy(sessions, at + 1, SwapRemove(slots, pos));
  }

  lemma MatchedLater(first: Match, rest: seq<Match>, index: nat)
    ensures IsMatched(rest, index) ==> IsMatched([first] + rest, index)
  {
    if IsMatched(rest, index) {
      var i :| 0 <= i < |rest| && rest[i].index == index;
      assert ([first] + rest)[i + 1].index == index;
    }
  }

  /** A candidate left out fits only slots that earlier candidates took. */
  lemma {:induction false} LeftOutMeansTaken(sessions: seq<Session>, at: nat, slots: seq<Slot>, index: nat, slot: Slot)
    requires at <= index < |sessions| && NoDuplicates(slots) && slot in slots
    requires Fits(sessions[index], slot) && !IsMatched(Assign(sessions, at, slots), index)
    ensures IsTaken(Assign(sessions, at, slots), slot, index)
    decreases |sessions| - at
  {
    hide Fits, SwapRemove;
    var matches := Assign(sessions, at, slots);
    match FirstFit(sessions[at], slots)
    case None =>
      LeftOutMeansTaken(sessions, at + 1, slots, index, slot);
    case Some(pos) =>
      var rest := Assign(sessions, at + 1, SwapRemove(slots, pos));
      SwapRemoveKeepsOthers(slots, pos);
      assert matches[0] == Match(at, slots[pos]);
      if index != at && slot != slots[pos] {
        MatchedLater(matches[0], rest, index);
        LeftOutMeansTaken(sessions, at + 1, SwapRemove(slots, pos), index, slot);
        var i :| 0 <= i < |rest| && rest[i].slot == slot && rest[i].index < index;
        assert matches[i + 1] == rest[i];
      }
  }

  /**
   * For every order of the slots: each slot is given once and to a transcript
   * that fits it; and a transcript is left out only if every slot it fits went to
   * one no older, so none it fits stays free.
   */
  lemma MatchingIsMaximal(sessions: seq<Session>, slots: seq<Slot>)
    requires Ascending(AGE, sessions) && NoDuplicates(slots)
    ensures var matches := Assign(sessions, 0, slots);
            && IsGreedy(sessions, 0, slots, matches)
            && forall index, slot ::
                 && 0 <= index < |sessions| && slot in slots
                 && Fits(sessions[index], slot) && !IsMatched(matches, index) ==>
                   exists i :: 0 <= i < |matches| && matches[i].slot == slot
                     && sessions[matches[i].index].age <= sessions[index].age
  {
    var matches := Assign(sessions, 0, slots);
    AssignIsGreedy(sessions, 0, slots);
    hide Fits, Assign;
    forall index, slot |
      0 <= index < |sessions| && slot in slots && Fits(sessions[index], slot) && !IsMatched(matches, index)
      ensures exists i :: 0 <= i < |matches| && matches[i].slot == slot
                && sessions[matches[i].index].age <= sessions[index].age
    {
      LeftOutMeansTaken(sessions, 0, slots, index, slot);
      var i :| 0 <= i < |matches| && matches[i].slot == slot && matches[i].index < index;
      assert AGE(sessions[matches[i].index]) <= AGE(sessions[index]);
    }
  }

  // ---- the filter

  /** A matched transcript's process is alive, so it counts as running unless it waits for input. */
  function Revived(session: Session): Session {
    if session.status.WaitingInput? then session else session.(status := Running)
  }

  function Results(sessions: seq<Session>, matches: seq<Match>): seq<Session>
    requires forall i :: 0 <= i < |matches| ==> matches[i].index < |sessions|
  {
    seq(|matches|, i requires 0 <= i < |matches| => Revived(sessions[matches[i].index]))
  }

  predicate MayBeActive(session: Session) {
    session.status != Done && session.status != Error && session.recent
  }

  /** What is shown when no process was found at all: the recent transcripts that have not ended. */
  function Fallback(sessions: seq<Session>): (out: seq<Session>)
    ensures forall s :: s in out <==> s in sessions && s.status != Done && s.status != Error && s.recent
  {
    if sessions == [] then []
    else if MayBeActive(sessions[0]) then [sessions[0]] + Fallback(sessions[1..])
    else Fallback(sessions[1..])
  }

  /**
   * Without any process the fallback; otherwise a slot is taken out for every
   * transcript that fits one. Either way one entry per agent is left.
   */
  method FilterByActiveSlots(candidates: seq<Session>, slots: seq<Slot>) returns (out: seq<Session>)
    requires NoDuplicates(slots)
    ensures slots == [] ==> out == SortAndDedup(Fallback(SortBy(AGE, candidates)))
    ensures slots != [] ==>
              var sorted := SortBy(AGE, candidates);
              var matches := Assign(sorted, 0, slots);
              IsGreedy(sorted, 0, slots, matches) && out == SortAndDedup(Results(sorted, matches))
  {
    hide SortBy, SortAndDedup, Assign, SwapRemove, Fits, FirstFit, Results, IsGreedy, NoDuplicates;
    var sorted := SortBy(AGE, candidates);
    if slots == [] {
      return SortAndDedup(Fallback(sorted));
    }
    AssignIsGreedy(sorted, 0, slots);
    var activeSlots := slots;
    ghost var done: seq<Match> := [];
    ghost var all := Assign(sorted, 0, slots);
    out := [];
    NoResults(sorted);
    assert [] + all == all;
    for i := 0 to |sorted|
      invariant done + Assign(sorted, i, activeSlots) == all
      invariant (forall k :: 0 <= k < |done| ==> done[k].index < |sorted|) && out == Results(sorted, done)
    {
      AssignStep(sorted, i, activeSlots, done);
      var pos := FirstFit(sorted[i], activeSlots);
      if pos.None? {
        continue;
      }
      ResultsSnoc(sorted, done, Match(i, activeSlots[pos.value]));
      done := done + [Match(i, activeSlots[pos.value])];
      activeSlots := SwapRemove(activeSlots, pos.value);
      var session := sorted[i];
      if !session.status.WaitingInput? {
        session := session.(status := Running);
      }
      out := out + [session];
    }
    AssignEnd(sorted, activeSlots, done);
    out := SortAndDedup(out);
  }

  /**
   * Every entry that comes out stands for a transcript that went in: with a live
   * process of its kind, in a directory on the same branch, when there are any
   * processes; it counts as running unless it waits for input. The ids descend.
   */
  lemma KeptHasProcess(candidates: seq<Session>, slots: seq<Slot>, out: Session)
    requires NoDuplicates(slots) && out in Kept(SortBy(AGE, candidates), slots)
    ensures exists c, slot :: c in candidates && slot in slots
              && slot.kind == c.kind && CwdPrefixMatches(NormalizeCwd(c.cwd), slot.cwd)
              && out == if c.status == WaitingInput then c else c.(status := Running)
  {
    hide SortBy, Assign, Dedup, Ascending, WithKey, NormalizeCwd, CwdPrefixMatches, Results, Fits, Revived;
    var sorted := SortBy(AGE, candidates);
    AssignIsGreedy(sorted, 0, slots);
    var matches := Assign(sorted, 0, slots);
    var results := Results(sorted, matches);
    DedupKeepsNothingNew(SortBy(ID_DESCENDING, results), out);
    SameElements(ID_DESCENDING, results, out);
    var i := ResultIsMatched(sorted, slots, matches, out);
    SameElements(AGE, candidates, sorted[matches[i].index]);
  }

  lemma SameElements(key: Session -> int, sessions: seq<Session>, s: Session)
    ensures s in SortBy(key, sessions) <==> s in sessions
  {
    SortSorts(key, sessions);
    hide SortBy, Ascending, WithKey;
    assert s in multiset(SortBy(key, sessions)) <==> s in multiset(sessions);
  }

  lemma ResultIsMatched(sessions: seq<Session>, slots: seq<Slot>, matches: seq<Match>, out: Session) returns (i: nat)
    requires IsGreedy(sessions, 0, slots, matches) && out in Results(sessions, matches)
    ensures i < |matches| && matches[i].index < |sessions| && matches[i].slot in slots
    ensures var c, slot := sessions[matches[i].index], matches[i].slot;
            && slot.kind == c.kind && CwdPrefixMatches(NormalizeCwd(c.cwd), slot.cwd)
            && out == if c.status == WaitingInput then c else c.(status := Running)
  {
    hide NormalizeCwd, CwdPrefixMatches;
    i :| 0 <= i < |matches| && Results(sessions, matches)[i] == out;
    assert Fits(sessions[matches[i].index], matches[i].slot);
  }

  lemma {:induction false} DedupKeepsNothingNew(sessions: seq<Session>, s: Session)
    requires s in Dedup(sessions)
    ensures s in sessions
    decreases |sessions|
  {
    if |sessions| >= 2 {
      if SameAgent(sessions[1], sessions[0]) {
        DedupKeepsNothingNew([sessions[0]] + sessions[2..], s);
      } else if s != sessions[0] {
        DedupKeepsNothingNew(sessions[1..], s);
      }
    }
  }

  /** The ids in the list that comes out descend. */
  lemma ResultDescends(sessions: seq<Session>, i: nat, j: nat)
    requires i < j < |SortAndDedup(sessions)|
    ensures SortAndDedup(sessions)[i].agentId >= SortAndDedup(sessions)[j].agentId
  {
    SortSorts(ID_DESCENDING, sessions);
    DedupAscends(SortBy(ID_DESCENDING, sessions));
    hide SortBy, Dedup;
    var out := SortAndDedup(sessions);
    assert ID_DESCENDING(out[i]) <= ID_DESCENDING(out[j]);
  }

  lemma {:induction false} DedupAscends(sessions: seq<Session>)
    requires Ascending(ID_DESCENDING, sessions)
    ensures Ascending(ID_DESCENDING, Dedup(sessions))
    decreases |sessions|
  {
    if |sessions| >= 2 {
      if SameAgent(sessions[1], sessions[0]) {
        var rest := [sessions[0]] + sessions[2..];
        DedupAscends(rest);
      } else {
        DedupAscends(sessions[1..]);
        forall s | s in Dedup(sessions[1..]) ensures ID_DESCENDING(sessions[0]) <= ID_DESCENDING(s) {
          DedupKeepsNothingNew(sessions[1..], s);
        }
        AscendingCons(ID_DESCENDING, sessions[0], Dedup(sessions[1..]));
      }
    }
  }

  lemma NoResults(sessions: seq<Session>)
    ensures Results(sessions, []) == []
  {
  }

  lemma ResultsSnoc(sessions: seq<Session>, matches: seq<Match>, m: Match)
    requires (forall i :: 0 <= i < |matches| ==> matches[i].index < |sessions|) && m.index < |sessions|
    ensures Results(sessions, matches + [m]) == Results(sessions, matches) + [Revived(sessions[m.index])]
  {
  }

  lemma AssignStep(sessions: seq<Session>, at: nat, slots: seq<Slot>, done: seq<Match>)
    requires at < |sessions|
    ensures var pos := FirstFit(sessions[at], slots);
            done + Assign(sessions, at, slots) ==
              if pos.None? then done + Assign(sessions, at + 1, slots)
              else done + [Match(at, slots[pos.value])] + Assign(sessions, at + 1, SwapRemove(slots, pos.value))
  {
    hide Fits, SwapRemove;
  }

  lemma AssignEnd(sessions: seq<Session>, slots: seq<Slot>, done: seq<Match>)
    ensures done + Assign(sessions, |sessions|, slots) == done
  {
  }

  // ---- when the order of the slots matters

  ghost predicate SameSlots(a: seq<Slot>, b: seq<Slot>) {
    NoDuplicates(a) && NoDuplicates(b) && forall slot :: slot in a <==> slot in b
  }

  /** The candidate fits at most one of the slots. */
  ghost predicate FitsOneAtMost(session: Session, slots: seq<Slot>) {
    forall a, b :: a in slots && b in slots && Fits(session, a) && Fits(session, b) ==> a == b
  }

  /** No candidate, when its turn comes, fits two slots that are still free. */
  ghost predicate Unambiguous(sessions: seq<Session>, at: nat, slots: seq<Slot>)
    requires at <= |sessions|
    decreases |sessions| - at
  {
    at == |sessions| ||
    (&& FitsOneAtMost(sessions[at], slots)
     && match FirstFit(sessions[at], slots)
        case None => Unambiguous(sessions, at + 1, slots)
        case Some(pos) => Unambiguous(sessions, at + 1, SwapRemove(slots, pos)))
  }

  /** The slots in any other order lead to the same matching. */
  ghost predicate OrderIsIrrelevant(sessions: seq<Session>, at: nat, slots: seq<Slot>)
    requires at <= |sessions|
  {
    forall other :: SameSlots(slots, other) ==> Assign(sessions, at, other) == Assign(sessions, at, slots)
  }

  /** A candidate that fits at most one slot takes the same one in every order, and leaves the same ones. */
  lemma SameChoice(session: Session, a: seq<Slot>, b: seq<Slot>)
    requires SameSlots(a, b) && FitsOneAtMost(session, a)
    ensures var i, j := FirstFit(session, a), FirstFit(session, b);
            && (i.None? <==> j.None?)
            && (i.Some? ==> a[i.value] == b[j.value] && SameSlots(SwapRemove(a, i.value), SwapRemove(b, j.value)))
  {
    hide Fits, SwapRemove;
    var i, j := FirstFit(session, a), FirstFit(session, b);
    if i.Some? {
      assert a[i.value] in b;
      SwapRemoveKeepsOthers(a, i.value);
    }
    if j.Some? {
      assert b[j.value] in a;
      SwapRemoveKeepsOthers(b, j.value);
    }
  }

  lemma {:induction false} SameForOtherOrder(sessions: seq<Session>, at: nat, a: seq<Slot>, b: seq<Slot>)
    requires at <= |sessions| && SameSlots(a, b) && Unambiguous(sessions, at, a)
    ensures Assign(sessions, at, b) == Assign(sessions, at, a)
    decreases |sessions| - at
  {
    if at == |sessions| {
      return;
    }
    hide SameSlots, FitsOneAtMost, Fits, SwapRemove;
    SameChoice(sessions[at], a, b);
    match FirstFit(sessions[at], a)
    case None => SameForOtherOrder(sessions, at + 1, a, b);
    case Some(pos) =>
      SameForOtherOrder(sessions, at + 1, SwapRemove(a, pos), SwapRemove(b, FirstFit(sessions[at], b).value));
  }

  /** Putting the other of two fitting slots first gives the candidate that one. */
  lemma OtherChoice(sessions: seq<Session>, at: nat, slots: seq<Slot>) returns (other: seq<Slot>)
    requires at < |sessions| && NoDuplicates(slots) && !FitsOneAtMost(sessions[at], slots)
    ensures SameSlots(slots, other) && Assign(sessions, at, other) != Assign(sessions, at, slots)
  {
    hide Fits;
    var pos := FirstFit(sessions[at], slots).value;
    var b :| b in slots && Fits(sessions[at], b) && b != slots[pos];
    var i :| 0 <= i < |slots| && slots[i] == b;
    SwapRemoveKeepsOthers(slots, i);
    other := [b] + SwapRemove(slots, i);
    hide SwapRemove;
    assert FirstFit(sessions[at], other) == Some(0);
    assert Assign(sessions, at, other)[0] == Match(at, b);
    assert Assign(sessions, at, slots)[0] == Match(at, slots[pos]);
  }

  /** With a slot it alone fits put last, the candidate takes it and leaves the others in their order. */
  lemma TakesLast(session: Session, rest: seq<Slot>, slot: Slot)
    requires Fits(session, slot) && forall i :: 0 <= i < |rest| ==> !Fits(session, rest[i])
    ensures FirstFit(session, rest + [slot]) == Some(|rest|)
    ensures SwapRemove(rest + [slot], |rest|) == rest
  {
    hide Fits;
    assert (rest + [slot])[|rest|] == slot;
  }

  lemma DiffersAfterNone(sessions: seq<Session>, at: nat, slots: seq<Slot>, other: seq<Slot>)
    requires at < |sessions| && FirstFit(sessions[at], slots).None?
    requires SameSlots(slots, other) && Assign(sessions, at + 1, other) != Assign(sessions, at + 1, slots)
    ensures Assign(sessions, at, other) != Assign(sessions, at, slots)
  {
    hide Fits, SwapRemove;
    assert forall i :: 0 <= i < |other| ==> other[i] in slots;
  }

  lemma DiffersAfterSome(sessions: seq<Session>, at: nat, slots: seq<Slot>, pos: nat, rest: seq<Slot>)
    requires at < |sessions| && NoDuplicates(slots) && FirstFit(sessions[at], slots) == Some(pos)
    requires FitsOneAtMost(sessions[at], slots) && SameSlots(SwapRemove(slots, pos), rest)
    requires Assign(sessions, at + 1, rest) != Assign(sessions, at + 1, SwapRemove(slots, pos))
    ensures Assign(sessions, at, rest + [slots[pos]]) != Assign(sessions, at, slots)
  {
    hide Fits, SwapRemove;
    SwapRemoveKeepsOthers(slots, pos);
    assert forall i :: 0 <= i < |rest| ==> rest[i] in SwapRemove(slots, pos);
    TakesLast(sessions[at], rest, slots[pos]);
    assert Assign(sessions, at, rest + [slots[pos]]) == [Match(at, slots[pos])] + Assign(sessions, at + 1, rest);
    SameMatches(
      Match(at, slots[pos]), Assign(sessions, at + 1, rest), Assign(sessions, at + 1, SwapRemove(slots, pos)));
  }

  lemma SameMatches(first: Match, a: seq<Match>, b: seq<Match>)
    ensures [first] + a == [first] + b <==> a == b
  {
    if [first] + a == [first] + b {
      assert a == ([first] + a)[1..] == ([first] + b)[1..] == b;
    }
  }

  lemma SameSlotsSnoc(slots: seq<Slot>, pos: nat, rest: seq<Slot>)
    requires NoDuplicates(slots) && pos < |slots| && SameSlots(SwapRemove(slots, pos), rest)
    ensures SameSlots(slots, rest + [slots[pos]])
  {
    SwapRemoveKeepsOthers(slots, pos);
    hide SwapRemove;
    DistinctSnoc(rest, slots[pos]);
  }

  lemma {:induction false} OtherOrderDiffers(sessions: seq<Session>, at: nat, slots: seq<Slot>)
    returns (other: seq<Slot>)
    requires at <= |sessions| && NoDuplicates(slots) && !Unambiguous(sessions, at, slots)
    ensures SameSlots(slots, other) && Assign(sessions, at, other) != Assign(sessions, at, slots)
    decreases |sessions| - at
  {
    if !FitsOneAtMost(sessions[at], slots) {
      other := OtherChoice(sessions, at, slots);
      return;
    }
    hide Assign, SwapRemove, FitsOneAtMost, SameSlots;
    match FirstFit(sessions[at], slots)
    case None =>
      other := OtherOrderDiffers(sessions, at + 1, slots);
      DiffersAfterNone(sessions, at, slots, other);
    case Some(pos) =>
      SwapRemoveKeepsOthers(slots, pos);
      var rest := OtherOrderDiffers(sessions, at + 1, SwapRemove(slots, pos));
      other := rest + [slots[pos]];
      SameSlotsSnoc(slots, pos, rest);
      DiffersAfterSome(sessions, at, slots, pos, rest);
  }

  /**
   * The slots come out of a hash map in no particular order. The matching is the
   * same for every order exactly when no candidate, when its turn comes, fits two
   * slots that are still free.
   */
  lemma OrderIsIrrelevantIff(sessions: seq<Session>, slots: seq<Slot>)
    requires NoDuplicates(slots)
    ensures OrderIsIrrelevant(sessions, 0, slots) <==> Unambiguous(sessions, 0, slots)
  {
    hide Assign, Unambiguous;
    if Unambiguous(sessions, 0, slots) {
      forall other | SameSlots(slots, other) ensures Assign(sessions, 0, other) == Assign(sessions, 0, slots) {
        SameForOtherOrder(sessions, 0, slots, other);
      }
    } else {
      var other := OtherOrderDiffers(sessions, 0, slots);
      assert SameSlots(slots, other);
    }
  }

  /** The transcripts kept for these slots, sorted newest first. */
  function Kept(sessions: seq<Session>, slots: seq<Slot>): seq<Session>
    requires NoDuplicates(slots)
  {
    AssignIsGreedy(sessions, 0, slots);
    SortAndDedup(Results(sessions, Assign(sessions, 0, slots)))
  }

  /** Then the same transcripts are kept for every order of the slots. */
  lemma KeptIsSame(sessions: seq<Session>, slots: seq<Slot>, other: seq<Slot>)
    requires SameSlots(slots, other) && Unambiguous(sessions, 0, slots)
    ensures Kept(sessions, other) == Kept(sessions, slots)
  {
    SameForOtherOrder(sessions, 0, slots, other);
    hide Assign, SortAndDedup;
  }

  /** They may be so otherwise too: one transcript that fits two slots is kept in either order. */
  lemma KeptWithOneCandidate(session: Session, a: Slot, b: Slot)
    requires a != b && Fits(session, a) && Fits(session, b)
    ensures !Unambiguous([session], 0, [a, b])
    ensures Kept([session], [a, b]) == Kept([session], [b, a])
  {
    hide Fits, SortAndDedup;
    assert a in [a, b] && b in [a, b];
    FitsFirst(session, a, b);
    FitsFirst(session, b, a);
    assert Results([session], [Match(0, a)]) == [Revived(session)] == Results([session], [Match(0, b)]);
  }

  lemma FitsFirst(session: Session, slot: Slot, other: Slot)
    requires Fits(session, slot)
    ensures Assign([session], 0, [slot, other]) == [Match(0, slot)]
  {
    hide Fits, SwapRemove;
    assert FirstFit(session, [slot, other]) == Some(0);
    assert Assign([session], 1, SwapRemove([slot, other], 0)) == [];
  }

  /** In particular when no candidate fits two of all the slots. */
  lemma {:induction false} OneFitEachIsUnambiguous(sessions: seq<Session>, at: nat, slots: seq<Slot>)
    requires at <= |sessions| && NoDuplicates(slots)
    requires forall i :: at <= i < |sessions| ==> FitsOneAtMost(sessions[i], slots)
    ensures Unambiguous(sessions, at, slots)
    decreases |sessions| - at
  {
    if at == |sessions| {
      return;
    }
    hide Fits, SwapRemove;
    match FirstFit(sessions[at], slots)
    case None => OneFitEachIsUnambiguous(sessions, at + 1, slots);
    case Some(pos) =>
      SwapRemoveKeepsOthers(slots, pos);
      OneFitEachIsUnambiguous(sessions, at + 1, SwapRemove(slots, pos));
  }

  /**
   * For example, a transcript in `/a/b` may take the process in `/a`, which is
   * the only one a transcript in `/a/c` fits.
   */
  lemma SlotOrderMatters(inner: Session, other: Session)
    requires inner.kind == other.kind == Claude && inner.cwd == "/a/b" && other.cwd == "/a/c"
    ensures var sessions := [inner, other];
            var wide, narrow := Slot(Claude, "/a"), Slot(Claude, "/a/b");
            && |Assign(sessions, 0, [wide, narrow])| == 1
            && |Assign(sessions, 0, [narrow, wide])| == 2
            && !Unambiguous(sessions, 0, [wide, narrow])
  {
    var sessions := [inner, other];
    var wide, narrow := Slot(Claude, "/a"), Slot(Claude, "/a/b");
    BranchesOfExample();
    assert Fits(inner, wide) && Fits(inner, narrow) && Fits(other, wide) && !Fits(other, narrow);
    hide Fits;
    assert SwapRemove([wide, narrow], 0) == [narrow];
    assert SwapRemove([narrow, wide], 0) == [wide];
    assert FirstFit(inner, [wide, narrow]) == Some(0) && FirstFit(inner, [narrow, wide]) == Some(0);
    assert FirstFit(other, [narrow]) == None && FirstFit(other, [wide]) == Some(0);
    assert Assign(sessions, 2, [narrow]) == [] && Assign(sessions, 2, SwapRemove([wide], 0)) == [];
    assert Assign(sessions, 1, [narrow]) == [];
    assert |Assign(sessions, 1, [wide])| == 1;
    assert wide in [wide, narrow] && narrow in [wide, narrow];
  }

  lemma BranchesOfExample()
    ensures NormalizeCwd("/a/b") == "/a/b" && NormalizeCwd("/a/c") == "/a/c"
    ensures CwdPrefixMatches("/a/b", "/a") && CwdPrefixMatches("/a/b", "/a/b")
    ensures CwdPrefixMatches("/a/c", "/a") && !CwdPrefixMatches("/a/c", "/a/b")
  {
    assert "/a/b"[3] == 'b' && "/a/c"[3] == 'c' && "/a"[1] == 'a';
    NormalizedIsNormal("/a/b");
    NormalizedIsNormal("/a/c");
    assert "/a/b" + "/" == "/a/b/" && "/a/c" + "/" == "/a/c/" && "/a" + "/" == "/a/";
    assert "/a/b/"[3] == 'b' && "/a/c/"[3] == 'c';
  }
}

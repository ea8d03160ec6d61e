/**
 * Whether what the board was told last of a bound agent's state and token counts
 * is what the daemon knows.
 */
module BoardView {
  import opened Wrappers
  import opened Utf8
  import opened Codec
  import opened Payloads
  import opened DaemonModel
  import opened DaemonInvariant
  import opened Bindings
  import opened Announcements
  import opened AgentRecord

  predicate ReportsStatus(e: Event, k: Key) {
    e.ReportActivity? && e.key == k && !k.kind.Unknown? && !IsBlank(k.id)
  }

  function Last<T>(s: seq<T>): T
    requires s != []
  {
    s[|s| - 1]
  }

  /** Registration `j` gave the agent its present status, which the board is not told. */
  predicate StatusFrom(es: seq<Event>, b: nat, j: nat, k: Key) {
    && b < j < |es| && Registers(es[j], k)
    && forall m :: j < m < |es| ==> !Registers(es[m], k) && !ReportsStatus(es[m], k)
  }

  lemma StatusFromSnoc(es: seq<Event>, b: nat, j: nat, k: Key)
    requires es != []
    ensures var init, e := es[..|es| - 1], es[|es| - 1];
            StatusFrom(es, b, j, k) <==>
              if j == |init| then b < j && Registers(e, k)
              else StatusFrom(init, b, j, k) && !Registers(e, k) && !ReportsStatus(e, k)
  {
    hide Registers, ReportsStatus;
    var init := es[..|es| - 1];
    assert forall m :: 0 <= m < |init| ==> init[m] == es[m];
  }

  /** How an agent that stays registered comes by its status and its token counts. */
  lemma StatusStep(es: seq<Event>, k: Key)
    requires es != [] && k in Run(INITIAL, es[..|es| - 1]).agents && k in Run(INITIAL, es).agents
    ensures var e, before, after := es[|es| - 1], Run(INITIAL, es[..|es| - 1]).agents[k], Run(INITIAL, es).agents[k];
            && after.status == (if Registers(e, k) then e.registration.status
                                else if ReportsStatus(e, k) then e.status else before.status)
            && after.usage == (if e.UpdateTokens? && e.key == k && !k.kind.Unknown? then e.usage else before.usage)
  {
    hide Run, First, Next, Registers, ReportsStatus, Bare;
    var init := es[..|es| - 1];
    RecordIsKnown(es, k);
    RecordIsKnown(init, k);
    NextStatus(Known(init, k).value, es[|es| - 1], k);
    RegistersOnly(es[|es| - 1], k);
    assert Known(es, k) == Some(Next(Known(init, k).value, es[|es| - 1], k));
  }

  lemma NextStatus(f: Facts, e: Event, k: Key)
    ensures Registers(e, k) ==> e.RegisterAgent?
    ensures ReportsStatus(e, k) ==> e.ReportActivity?
    ensures Next(f, e, k).status == if Registers(e, k) then e.registration.status
                                    else if ReportsStatus(e, k) then e.status else f.status
    ensures Next(f, e, k).usage == if e.UpdateTokens? && e.key == k && !k.kind.Unknown? then e.usage else f.usage
  {
    hide NamesParent, ParentNamed, TurnsIngested, IsBlank;
  }

  lemma RegistersOnly(e: Event, k: Key)
    ensures Registers(e, k) ==> e.RegisterAgent?
  {
  }

  ghost predicate StaleStatus(es: seq<Event>, b: nat, k: Key, told: seq<byte>) {
    exists j: nat :: StatusFrom(es, b, j, k) && [StatusByte(es[j].registration.status)] != told
  }

  /** The status of the last registration since the grant, if no report came after it. */
  function Unsaid(es: seq<Event>, b: nat, k: Key): Option<AgentStatus> {
    if |es| <= b + 1 then None
    else
      var e := es[|es| - 1];
      if Registers(e, k) then Some(e.registration.status)
      else if ReportsStatus(e, k) then None
      else Unsaid(es[..|es| - 1], b, k)
  }

  lemma {:induction false} UnsaidIff(es: seq<Event>, b: nat, k: Key)
    ensures Unsaid(es, b, k).None? <==> forall j: nat :: !StatusFrom(es, b, j, k)
    ensures forall j: nat :: StatusFrom(es, b, j, k) ==> Unsaid(es, b, k) == Some(es[j].registration.status)
  {
    hide Registers, ReportsStatus, StatusFrom;
    StatusFromBefore(es, b, k);
    if |es| <= b + 1 {
      return;
    }
    var init, e := es[..|es| - 1], es[|es| - 1];
    UnsaidIff(init, b, k);
    forall j: nat { StatusFromSnoc(es, b, j, k); }
    StatusFromBefore(init, b, k);
    RegistersOnly(e, k);
    if Registers(e, k) {
      assert StatusFrom(es, b, |init|, k);
    } else if Unsaid(es, b, k).Some? {
      var j: nat :| StatusFrom(init, b, j, k);
      assert StatusFrom(es, b, j, k);
    }
    assert forall j: nat :: j < |init| ==> es[j] == init[j];
  }

  /** What the board is told of a session since the grant. */
  ghost function Due(es: seq<Event>, b: nat, k: Key, cmd: Cmd): seq<seq<byte>>
    requires b < |es| && k in Run(INITIAL, es[..b]).agents
  {
    Introduction(Run(INITIAL, es[..b]).agents[k], cmd) + Reports(es, b, k, cmd)
  }

  lemma DueSnoc(es: seq<Event>, b: nat, k: Key, cmd: Cmd)
    requires b + 1 < |es| && k in Run(INITIAL, es[..b]).agents
    ensures es[..|es| - 1][..b] == es[..b]
    ensures Due(es, b, k, cmd) == Due(es[..|es| - 1], b, k, cmd) + Report(es[|es| - 1], k, cmd)
  {
    hide Run, Introduction, Report;
    assert es[..|es| - 1][..b] == es[..b];
  }

  lemma DueFirst(es: seq<Event>, b: nat, k: Key, cmd: Cmd)
    requires b + 1 == |es| && k in Run(INITIAL, es[..b]).agents
    ensures Due(es, b, k, cmd) == Introduction(Run(INITIAL, es[..b]).agents[k], cmd)
  {
    hide Run, Introduction;
  }

  /** The board was told a status, and the agent has another only by a registration. */
  lemma {:induction false} StatusOrRegistration(es: seq<Event>, b: nat, k: Key, sid: Sid)
    requires BoundSince(es, b, k, sid)
    ensures b < |es| && k in Run(INITIAL, es).agents && k in Run(INITIAL, es[..b]).agents
    ensures var told, status := Due(es, b, k, Cmd.StatusUpdate), Run(INITIAL, es).agents[k].status;
            && told != []
            && (if Unsaid(es, b, k).None? then Last(told) == [StatusByte(status)] else Unsaid(es, b, k) == Some(status))
  {
    hide Step, BoundSince, Binds, Unbinds, Registers, ReportsStatus, Inv, StatusByte, Due, Report;
    BoundBefore(es, k, sid);
    BoundWasRegistered(es, b, k, sid);
    OwnsIff(es, k, sid);
    var init, e := es[..|es| - 1], es[|es| - 1];
    assert es == init + [e];
    BoundSnoc(init, e, b, k, sid);
    if b == |init| {
      assert es[..b] == init;
      StatusStep(es, k);
      GrantIsNoReport(Run(INITIAL, init), e, k, sid);
      DueFirst(es, b, k, Cmd.StatusUpdate);
    } else {
      StatusOrRegistration(init, b, k, sid);
      DueSnoc(es, b, k, Cmd.StatusUpdate);
      StatusStep(es, k);
      ReportIsStatus(e, k);
      RegistersOnly(e, k);
    }
  }

  lemma StatusFromBefore(es: seq<Event>, b: nat, k: Key)
    ensures forall j: nat :: StatusFrom(es, b, j, k) ==> b < j < |es|
  {
  }

  lemma GrantIsNoReport(s: State, e: Event, k: Key, sid: Sid)
    requires Binds(s, e, k, sid)
    ensures !Registers(e, k) && !ReportsStatus(e, k) && !e.UpdateTokens?
  {
  }

  lemma ReportIsStatus(e: Event, k: Key)
    ensures Report(e, k, Cmd.StatusUpdate) == if ReportsStatus(e, k) then [[StatusByte(e.status)]] else []
  {
  }

  /**
   * In every legal run, what the board was told last of a bound agent's state is
   * its present state, except after a registration that changed it: a known agent
   * that registers again is not announced again.
   */
  lemma StatusIsCurrentIff(es: seq<Event>, b: nat, k: Key, sid: Sid)
    requires LegalRun(INITIAL, es) && BoundSince(es, b, k, sid)
    ensures var told := Told(Since(es, b), Cmd.StatusUpdate, sid);
            && k in Run(INITIAL, es).agents && told != []
            && (Last(told) == [StatusByte(Run(INITIAL, es).agents[k].status)] <==> !StaleStatus(es, b, k, Last(told)))
  {
    hide Run, Told, Since, BoundSince, Introduction, Reports, StatusFrom, StatusByte, LegalRun, Unsaid;
    StatusOrRegistration(es, b, k, sid);
    UnsaidIff(es, b, k);
    BoardIsTold(es, b, k, sid, Cmd.StatusUpdate);
  }

  // ---- token counts

  lemma {:induction false} UsageOrZero(es: seq<Event>, b: nat, k: Key, sid: Sid)
    requires BoundSince(es, b, k, sid)
    ensures b < |es| && k in Run(INITIAL, es).agents && k in Run(INITIAL, es[..b]).agents
    ensures var told, usage := Due(es, b, k, Cmd.TokenUsage), Run(INITIAL, es).agents[k].usage;
            && (usage != Usage(0, 0, 0) ==> told != [] && Last(told) == EncodeTokenUsage(usage))
            && (told != [] ==> exists u :: u != Usage(0, 0, 0) && Last(told) == EncodeTokenUsage(u))
  {
    hide Step, BoundSince, Binds, Unbinds, Registers, Inv, IsBlank, EncodeTokenUsage, Due, Report;
    BoundBefore(es, k, sid);
    BoundWasRegistered(es, b, k, sid);
    OwnsIff(es, k, sid);
    var init, e := es[..|es| - 1], es[|es| - 1];
    assert es == init + [e];
    BoundSnoc(init, e, b, k, sid);
    if b == |init| {
      assert es[..b] == init;
      StatusStep(es, k);
      GrantIsNoReport(Run(INITIAL, init), e, k, sid);
      DueFirst(es, b, k, Cmd.TokenUsage);
    } else {
      UsageOrZero(init, b, k, sid);
      DueSnoc(es, b, k, Cmd.TokenUsage);
      StatusStep(es, k);
      ReportIsUsage(e, k);
    }
  }

  lemma ReportIsUsage(e: Event, k: Key)
    ensures Report(e, k, Cmd.TokenUsage) ==
              if e.UpdateTokens? && e.key == k && !k.kind.Unknown? && e.usage != Usage(0, 0, 0)
              then [EncodeTokenUsage(e.usage)] else []
  {
  }

  /**
   * The token counts the board was told last are the present ones, unless they went
   * back to zero, which the board is not told.
   */
  lemma UsageIsCurrentIff(es: seq<Event>, b: nat, k: Key, sid: Sid)
    requires LegalRun(INITIAL, es) && BoundSince(es, b, k, sid)
    ensures var told := Told(Since(es, b), Cmd.TokenUsage, sid);
            && k in Run(INITIAL, es).agents
            && var usage := Run(INITIAL, es).agents[k].usage;
               (if told == [] then usage == Usage(0, 0, 0)
                else Last(told) == EncodeTokenUsage(usage) <==> usage != Usage(0, 0, 0))
  {
    hide Run, Told, Since, BoundSince, Introduction, Reports, EncodeTokenUsage, DecodeTokenUsage, LegalRun;
    UsageOrZero(es, b, k, sid);
    BoardIsTold(es, b, k, sid, Cmd.TokenUsage);
    var told := Told(Since(es, b), Cmd.TokenUsage, sid);
    var usage := Run(INITIAL, es).agents[k].usage;
    if told != [] && usage == Usage(0, 0, 0) {
      var u :| u != Usage(0, 0, 0) && Last(told) == EncodeTokenUsage(u);
      TokenUsageRoundTrip(u);
      TokenUsageRoundTrip(usage);
    }
  }
}

/** The link table: for every state and event, where the step leaves the session and what the application hears. */
module ConnTable {
  import opened Ax25Types
  import opened TxWindow
  import opened ConnSpec
  import opened ConnEffects
  import opened ConnSpeech
  import opened ConnAnswers

  /** A SABM that is taken, or the UA with the F bit that answers ours. */
  predicate Opens(c: Conn, e: Event) {
    || (HearsU(c, e, SABM) && c.state != AwaitingRelease && (c.state == Disconnected ==> !e.refuse))
    || (HearsU(c, e, UA) && c.state == AwaitingConnection && PduOf(e.frame).upf)
  }

  /** The peer ends the session, refuses it, or confirms its end. */
  predicate Ends(c: Conn, e: Event) {
    || (HearsU(c, e, DISC) && (Live(c) || c.state == AwaitingRelease))
    || (HearsU(c, e, DM) && c.state != Disconnected)
    || (HearsU(c, e, UA) && c.state == AwaitingRelease)
  }

  /** The answer to a poll. */
  predicate Answered(c: Conn, e: Event) {
    && Heard(c, e) && c.state == TimerRecovery
    && match PduOf(e.frame)
       case Sup(_, nr, pf, command) => pf && !command && GoodNr(c, nr)
       case _ => false
  }

  predicate Redials(c: Conn, e: Event) { Misnumbered(c, e) || (Live(c) && HearsU(c, e, FRMR)) }

  function NextState(c: Conn, e: Event): State {
    if Dials(c, e) || Redials(c, e) then AwaitingConnection
    else if Closes(c, e) then AwaitingRelease
    else if GivesUp(c, e) || Ends(c, e) then Disconnected
    else if Opens(c, e) || Answered(c, e) then Connected
    else if c.state == Connected && (e.T1? || e.T3?) then TimerRecovery
    else c.state
  }

  /** The tries since the last answer. */
  function NextRetry(c: Conn, e: Event): nat {
    if Retries(c, e) then Tries(c) + 1
    else if Dials(c, e) || Redials(c, e) || Closes(c, e) || GivesUp(c, e) || Ends(c, e) || Opens(c, e) || Answered(c, e)
      || (c.state == Connected && e.T3?) || (c.state == Disconnected && HearsU(c, e, SABM)) then 0
    else c.retry
  }

  /** on_connect is called, even for a call that it goes on to refuse. */
  predicate Joins(c: Conn, e: Event) {
    || (HearsU(c, e, SABM) && (c.state == Disconnected || c.state == AwaitingConnection))
    || (HearsU(c, e, UA) && c.state == AwaitingConnection && PduOf(e.frame).upf)
  }

  function ReportOf(a: Action): seq<Action> { if a.Fail? || a.LinkReset? then [a] else [] }

  /** The error and link reset reports among the actions. */
  function Reports(out: seq<Action>): seq<Action> {
    if out == [] then [] else ReportOf(out[0]) + Reports(out[1..])
  }

  function Timeout(s: State): Fault {
    if s == AwaitingConnection then ConnectTimeout else if s == AwaitingRelease then ReleaseTimeout else LinkFailure
  }

  /** What the application hears, other than of the end and of data. */
  function Hears(c: Conn, e: Event): seq<Action> {
    if GivesUp(c, e) then [Fail(Timeout(c.state), Tries(c))]
    else if Misnumbered(c, e) then [Fail(BadNr, c.retry)]
    else if Live(c) && HearsU(c, e, FRMR) then [Fail(FrmrReceived, c.retry)]
    else if Live(c) && HearsU(c, e, DM) then [Fail(DmReceived, c.retry)]
    else if c.state == AwaitingConnection && HearsU(c, e, DM) then [Fail(Refused, c.retry)]
    else if c.state == Connected && HearsU(c, e, SABM) then [LinkReset]
    else []
  }

  lemma {:induction false} ReportsAppend(a: seq<Action>, b: seq<Action>)
    ensures Reports(a + b) == Reports(a) + Reports(b)
  {
    hide ReportOf;
    if a == [] {
      assert a + b == b && Reports(a) == [];
    } else {
      var x := ReportOf(a[0]);
      assert (a + b)[1..] == a[1..] + b && (a + b)[0] == a[0];
      ReportsAppend(a[1..], b);
      assert Reports(a) == x + Reports(a[1..]);
      assert Reports(a + b) == x + Reports(a[1..] + b);
    }
  }

  lemma {:induction false} NoReports(out: seq<Action>)
    requires forall a :: a in out ==> !a.Fail? && !a.LinkReset?
    ensures Reports(out) == []
  {
    if out != [] { assert out[0] in out; NoReports(out[1..]); }
  }

  /** The outcome agrees with the tables. */
  predicate Goes(o: Outcome, state: State, retry: nat, joined: bool, reports: seq<Action>) {
    o.conn.state == state && o.conn.retry == retry && o.joined == joined && Reports(o.out) == reports
  }

  lemma LeaveGoes(c: Conn, first: seq<Action>)
    ensures Goes(Leave(c, first), Disconnected, 0, false, Reports(first))
  {
    hide Clear;
    NoReports(EnterDisconnected(c).1);
    ReportsAppend(first, EnterDisconnected(c).1);
    assert Reports(first) + [] == Reports(first);
  }

  lemma SendPendingGoes(c: Conn)
    ensures var (d, out) := SendPending(c); d.state == c.state && d.retry == c.retry && Reports(out) == []
  {
    hide IFrame, Unsent, MarkSent;
    var out := SendPending(c).1;
    forall a | a in out ensures a.Transmit? { var i :| 0 <= i < |out| && a == out[i]; }
    NoReports(out);
  }

  lemma OnlyFrames(out: seq<Action>, more: seq<Action>)
    requires (forall a :: a in out ==> !a.Fail? && !a.LinkReset?) && Reports(more) == []
    ensures Reports(out + more) == []
  {
    NoReports(out);
    ReportsAppend(out, more);
  }

  lemma ResumedGoes(c: Conn, w: Tx, pf: bool, command: bool)
    ensures Goes(Resumed(c, w, pf, command), c.state, c.retry, false, [])
  {
    hide SendPending, Ack, Reports;
    var c1 := c.(peerBusy := false);
    SendPendingGoes(c1.(tx := w));
    OnlyFrames(AckIfPolled(c1, pf, command), SendPending(c1.(tx := w)).1);
  }

  lemma SupervisedGoes(c: Conn, s: SupKind, nr: Seq8, pf: bool, command: bool)
    ensures Goes(Supervised(c, s, nr, pf, command), c.state, c.retry, false, [])
  {
    hide Resumed, Ack, MarkUnsent;
    ResumedGoes(c, c.tx, pf, command);
    ResumedGoes(c, MarkUnsent(c.tx, nr), pf, command);
    NoReports(AckIfPolled(c.(peerBusy := true), pf, command));
  }

  lemma RestartedGoes(d: Conn, again: bool)
    ensures var (e, out) := Restarted(d, again); e.state == d.state && e.retry == d.retry && Reports(out) == []
  {
    hide SendPending;
    SendPendingGoes(d);
    SendPendingGoes(d.(t3 := false));
  }

  lemma RecoverySupGoes(c: Conn, s: SupKind, nr: Seq8, pf: bool, command: bool)
    requires c.state == TimerRecovery && IsValidNr(c.tx, nr)
    ensures var final := pf && !command;
            Goes(RecoverySup(c, s, nr, pf, command), if final then Connected else TimerRecovery,
                 if final then 0 else c.retry, false, [])
  {
    hide Prepared, Restarted, Ack, IsValidNr, Reports;
    var final := pf && !command;
    var d := Prepared(c, s, nr, final);
    var again := d.tx.va != d.tx.vs && (final || s.REJ?);
    PreparedVoice(c, s, nr, final);
    PreparedRetry(c, s, nr, final);
    RestartedGoes(d, again);
    OnlyFrames(if s.OtherS? then [] else AckIfPolled(d, pf, command), Restarted(d, again).1);
  }

  lemma PreparedRetry(c: Conn, s: SupKind, nr: Seq8, final: bool)
    ensures Prepared(c, s, nr, final).retry == if final then 0 else c.retry
  {
    hide HandleNr, MarkUnsent, Noted;
    HandleNrVoice(c, nr);
    NotedVoice(if final then Recovered(HandleNr(c, nr)) else HandleNr(c, nr), s, nr);
  }

  lemma InfoGoes(c: Conn, ns: Seq8, nr: Seq8, pf: bool, payload: seq<byte>)
    requires Live(c) && IsValidNr(c.tx, nr)
    ensures Goes(if c.state == Connected then ConnectedInfo(c, ns, nr, pf, payload)
                 else RecoveryInfo(c, ns, nr, pf, payload), c.state, c.retry, false, [])
  {
    hide Receive, SendPending, HandleNr, IsValidNr, Reports;
    HandleNrVoice(c, nr);
    var c1 := HandleNr(c, nr).(peerBusy := false);
    ReceiveGoes(c1, ns, pf, payload);
    var (d, out) := Receive(c1, ns, pf, payload);
    var e := if ns == c.vr then d.(t3 := true) else d;
    SendPendingGoes(e);
    NoReports(out);
    OnlyFrames(out, SendPending(e).1);
  }

  lemma ReceiveGoes(c: Conn, ns: Seq8, pf: bool, payload: seq<byte>)
    ensures var (d, out) := Receive(c, ns, pf, payload);
            && d.state == c.state && d.retry == c.retry && (forall a :: a in out ==> !a.Fail? && !a.LinkReset?)
  {
    hide Ack, SFrame;
  }

  /** What the tables say of an event. */
  predicate ByTable(c: Conn, e: Event, o: Outcome) {
    Goes(o, NextState(c, e), NextRetry(c, e), Joins(c, e), Hears(c, e))
  }

  lemma RedialGoes(c: Conn)
    ensures Goes(Redial(c), AwaitingConnection, 0, false, [Fail(FrmrReceived, c.retry)])
    ensures Goes(NrErrorRecovery(c), AwaitingConnection, 0, false, [Fail(BadNr, c.retry)])
  {
    hide UFrame, Clear;
    NoReports(NrErrorRecovery(c).out[1..]);
    NoReports(Redial(c).out[1..]);
  }

  lemma CallGoes(c: Conn, f: Frame, pf: bool, refuse: bool)
    ensures Goes(Greet(c, f, pf, refuse), if refuse then Disconnected else Connected, 0, true, [])
    ensures Goes(Meet(c, f, pf), Connected, 0, true, [])
    ensures Goes(Relink(c, f, pf), Connected, 0, false, if c.state == Connected then [LinkReset] else [])
  {
    hide UFrame, Clear, SetPath, Leave, Reports;
    var c1 := SetPath(c.(peer := c.peer.(remote := f.source, remoteSet := true)), f.digipeaters);
    LeaveGoes(c1, [UFrame(c1, DM, pf)]);
    var d := Reset(SetPath(c, f.digipeaters));
    NoReports([UFrame(c1, DM, pf)]);
    NoReports([UFrame(d, UA, pf)]);
    NoReports([UFrame(Reset(c1), UA, pf)]);
    OneReport(LinkReset);
    ReportsAppend([LinkReset], [UFrame(d, UA, pf)]);
    assert [] + [UFrame(d, UA, pf)] == [UFrame(d, UA, pf)];
  }

  lemma OneReport(a: Action)
    requires a.Fail? || a.LinkReset?
    ensures Reports([a]) == [a]
  {
    assert [a][1..] == [];
  }

  lemma UnnumGoes(c: Conn, f: Frame, refuse: bool)
    requires PduOf(f).Unnum? && Accepts(c, f)
    ensures ByTable(c, Arrive(f, refuse), Dispatch(c, f, refuse))
  {
    hide PduOf, Accepts, Dispatch, ByTable;
    if Live(c) { LiveUnnumGoes(c, f, refuse); }
    else if c.state == Disconnected { IdleUnnumGoes(c, f, refuse); }
    else { WaitingUnnumGoes(c, f, refuse); }
  }

  /** The row of a live session for a U frame. */
  predicate LiveRow(c: Conn, u: UnnumKind, o: Outcome) {
    match u
    case SABM => Goes(o, Connected, 0, false, if c.state == Connected then [LinkReset] else [])
    case DISC => Goes(o, Disconnected, 0, false, [])
    case DM => Goes(o, Disconnected, 0, false, [Fail(DmReceived, c.retry)])
    case FRMR => Goes(o, AwaitingConnection, 0, false, [Fail(FrmrReceived, c.retry)])
    case _ => Goes(o, c.state, c.retry, false, [])
  }

  lemma LiveUnnumGoes(c: Conn, f: Frame, refuse: bool)
    requires PduOf(f).Unnum? && Accepts(c, f) && Live(c)
    ensures ByTable(c, Arrive(f, refuse), Dispatch(c, f, refuse))
  {
    hide PduOf, Accepts, ByTable, LiveRow, LiveUnnum;
    LiveUnnumRow(c, f, PduOf(f).ukind, PduOf(f).upf);
    LiveRowTable(c, f, refuse, LiveUnnum(c, f, PduOf(f).ukind, PduOf(f).upf));
  }

  lemma LiveUnnumRow(c: Conn, f: Frame, u: UnnumKind, pf: bool)
    requires Live(c)
    ensures LiveRow(c, u, LiveUnnum(c, f, u, pf))
  {
    hide UFrame, Leave, Relink, Redial, Reports;
    CallGoes(c, f, pf, false);
    RedialGoes(c);
    NoReports([UFrame(c, UA, pf)]);
    NoReports([]);
    OneReport(Fail(DmReceived, c.retry));
    LeaveGoes(c, [UFrame(c, UA, pf)]);
    LeaveGoes(c, [Fail(DmReceived, c.retry)]);
  }

  lemma LiveRowTable(c: Conn, f: Frame, refuse: bool, o: Outcome)
    requires PduOf(f).Unnum? && Accepts(c, f) && Live(c) && LiveRow(c, PduOf(f).ukind, o)
    ensures ByTable(c, Arrive(f, refuse), o)
  {
    hide PduOf, Accepts, Reports;
  }

  lemma IdleUnnumGoes(c: Conn, f: Frame, refuse: bool)
    requires PduOf(f).Unnum? && Accepts(c, f) && c.state == Disconnected
    ensures ByTable(c, Arrive(f, refuse), Dispatch(c, f, refuse))
  {
    hide PduOf, Accepts, UFrame, Greet, Reports;
    var pf := PduOf(f).upf;
    CallGoes(c, f, pf, refuse);
    NoReports([UFrame(c, DM, pf)]);
    NoReports([]);
  }

  /** The row of a station that waits for an answer. */
  predicate WaitingRow(c: Conn, u: UnnumKind, pf: bool, o: Outcome) {
    var dialling := c.state == AwaitingConnection;
    match u
    case UA =>
      if !dialling then Goes(o, Disconnected, 0, false, [])
      else if pf then Goes(o, Connected, 0, true, []) else Goes(o, c.state, c.retry, false, [])
    case DM => Goes(o, Disconnected, 0, false, if dialling then [Fail(Refused, c.retry)] else [])
    case SABM => if dialling then Goes(o, Connected, 0, true, []) else Goes(o, c.state, c.retry, false, [])
    case DISC => if dialling then Goes(o, c.state, c.retry, false, []) else Goes(o, Disconnected, 0, false, [])
    case _ => Goes(o, c.state, c.retry, false, [])
  }

  lemma WaitingUnnumGoes(c: Conn, f: Frame, refuse: bool)
    requires PduOf(f).Unnum? && Accepts(c, f) && (c.state == AwaitingConnection || c.state == AwaitingRelease)
    ensures ByTable(c, Arrive(f, refuse), Dispatch(c, f, refuse))
  {
    hide PduOf, Accepts, ByTable, WaitingRow, HandleAwaitingConnection, HandleAwaitingRelease;
    if c.state == AwaitingConnection { DiallingRow(c, f); } else { ReleasingRow(c, f); }
    WaitingRowTable(c, f, refuse, Dispatch(c, f, refuse));
  }

  lemma DiallingRow(c: Conn, f: Frame)
    requires PduOf(f).Unnum? && c.state == AwaitingConnection
    ensures WaitingRow(c, PduOf(f).ukind, PduOf(f).upf, HandleAwaitingConnection(c, f))
  {
    hide PduOf, UFrame, Leave, Reset, Meet, Reports, Goes;
    var pf := PduOf(f).upf;
    CallGoes(c, f, pf, false);
    JoinGoes(c);
    StaysGoes(c, [UFrame(c, DM, pf)]);
    StaysGoes(c, []);
    OneReport(Fail(Refused, c.retry));
    LeaveGoes(c, [Fail(Refused, c.retry)]);
  }

  lemma StaysGoes(c: Conn, out: seq<Action>)
    requires forall a :: a in out ==> !a.Fail? && !a.LinkReset?
    ensures Goes(Outcome(c, out, OK, false), c.state, c.retry, false, [])
  {
    NoReports(out);
  }

  lemma ReleasingRow(c: Conn, f: Frame)
    requires PduOf(f).Unnum? && c.state == AwaitingRelease
    ensures WaitingRow(c, PduOf(f).ukind, PduOf(f).upf, HandleAwaitingRelease(c, f))
  {
    hide PduOf, UFrame, Leave, Reports, Goes;
    var pf := PduOf(f).upf;
    StaysGoes(c, [UFrame(c, DM, pf)]);
    StaysGoes(c, []);
    NoReports([UFrame(c, UA, pf)]);
    NoReports([]);
    LeaveGoes(c, []);
    LeaveGoes(c, [UFrame(c, UA, pf)]);
  }

  lemma WaitingRowTable(c: Conn, f: Frame, refuse: bool, o: Outcome)
    requires PduOf(f).Unnum? && Accepts(c, f) && (c.state == AwaitingConnection || c.state == AwaitingRelease)
    requires WaitingRow(c, PduOf(f).ukind, PduOf(f).upf, o)
    ensures ByTable(c, Arrive(f, refuse), o)
  {
    hide PduOf, Accepts, Reports;
  }

  lemma JoinGoes(c: Conn)
    ensures Goes(Outcome(Reset(c.(t1 := false)).(state := Connected, t3 := true), [], OK, true), Connected, 0, true, [])
  {
    hide Clear;
  }

  lemma LiveGoes(c: Conn, f: Frame)
    requires Live(c) && !PduOf(f).Unnum? && Accepts(c, f)
    ensures ByTable(c, Arrive(f, false), HandleLive(c, f)) && ByTable(c, Arrive(f, true), HandleLive(c, f))
  {
    hide PduOf, Accepts, Reports, Supervised, RecoverySup, ConnectedInfo, RecoveryInfo, HandleNr, NrErrorRecovery,
        IsValidNr, GoodNr;
    RedialGoes(c);
    NoReports([]);
    match PduOf(f)
    case Sup(s, nr, pf, command) =>
      GoodNrIs(c, nr);
      HandleNrVoice(c, nr);
      SupervisedGoes(HandleNr(c, nr), s, nr, pf, command);
      if !IsValidNr(c.tx, nr) { Refuses(c, s, nr, pf, command, 0, []); }
      else if c.state == TimerRecovery { RecoverySupGoes(c, s, nr, pf, command); }
    case Info(ns, nr, pf, payload) =>
      GoodNrIs(c, nr);
      if IsValidNr(c.tx, nr) { InfoGoes(c, ns, nr, pf, payload); }
      else { Refuses(c, RR, nr, pf, false, ns, payload); }
    case NoPdu =>
  }

  lemma FrameGoes(c: Conn, f: Frame, refuse: bool)
    ensures ByTable(c, Arrive(f, refuse), OnFrame(c, f, refuse))
  {
    hide PduOf, Accepts, HandleLive, UFrame, Leave, Reset, SetPath, GoodNr, Dispatch;
    if Accepts(c, f) {
      if PduOf(f).Unnum? { UnnumGoes(c, f, refuse); }
      else if Live(c) { LiveGoes(c, f); DispatchLive(c, f, refuse); }
      else { ClosedSteady(c, f, refuse); }
    }
  }

  /** The rows of the tables for T1. */
  predicate T1ByTable(c: Conn, o: Outcome) {
    if c.state == Disconnected then Goes(o, Disconnected, c.retry, false, [])
    else if Tries(c) < c.cfg.n2 then
      Goes(o, if c.state == Connected then TimerRecovery else c.state, Tries(c) + 1, false, [])
    else Goes(o, Disconnected, 0, false, [Fail(Timeout(c.state), Tries(c))])
  }

  lemma T1Goes(c: Conn, late: bool)
    ensures ByTable(c, T1(late), OnT1(c, late))
  {
    hide T1Expired, ByTable, T1ByTable;
    T1Outcome(c.(t1 := c.t1 && late));
    T1Table(c, late, OnT1(c, late));
  }

  lemma T1Table(c: Conn, late: bool, o: Outcome)
    requires T1ByTable(c.(t1 := c.t1 && late), o)
    ensures ByTable(c, T1(late), o)
  {
    hide Reports, Accepts, PduOf;
  }

  lemma T1Outcome(c: Conn)
    ensures T1ByTable(c, T1Expired(c))
  {
    hide T1Expired, Reports, PollPeer;
    if Live(c) {
      T1FromLive(c);
      PollGoes(if c.state == Connected then c.(state := TimerRecovery, retry := 0) else c);
    } else { AskGoes(c); }
  }

  lemma AskGoes(c: Conn)
    requires !Live(c)
    ensures T1ByTable(c, T1Expired(c))
  {
    hide UFrame, Leave, Reports;
    NoReports([]);
    NoReports([UFrame(c, SABM, true)]);
    NoReports([UFrame(c, DISC, true)]);
    OneReport(Fail(ConnectTimeout, c.retry));
    OneReport(Fail(ReleaseTimeout, c.retry));
    LeaveGoes(c, [Fail(ConnectTimeout, c.retry)]);
    LeaveGoes(c, [Fail(ReleaseTimeout, c.retry)]);
  }

  lemma PollGoes(c: Conn)
    ensures if c.retry < c.cfg.n2 then Goes(PollPeer(c), c.state, c.retry + 1, false, [])
            else Goes(PollPeer(c), Disconnected, 0, false, [Fail(LinkFailure, c.retry)])
  {
    hide UFrame, SFrame, Leave, Reports;
    var x, dm := Fail(LinkFailure, c.retry), UFrame(c, DM, true);
    NoReports([SFrame(c, RR, true, true)]);
    NoReports([dm]);
    OneReport(x);
    ReportsAppend([x], [dm]);
    assert [x] + [dm] == [x, dm];
    LeaveGoes(c, [x, dm]);
  }

  lemma T2Goes(c: Conn, late: bool)
    ensures ByTable(c, T2(late), OnT2(c, late))
  {
    hide Ack, Accepts, PduOf, Reports;
    NoReports(OnT2(c, late).out);
  }

  lemma T3Goes(c: Conn, late: bool)
    ensures ByTable(c, T3(late), OnT3(c, late))
  {
    hide SFrame, Reports, ByTable;
    NoReports(OnT3(c, late).out);
    T3Table(c, late, OnT3(c, late));
  }

  lemma T3Table(c: Conn, late: bool, o: Outcome)
    requires if c.state == Connected then Goes(o, TimerRecovery, 0, false, []) else Goes(o, c.state, c.retry, false, [])
    ensures ByTable(c, T3(late), o)
  {
    hide Accepts, PduOf, Reports;
  }

  lemma BusyGoes(c: Conn, busy: bool)
    ensures ByTable(c, Busy(busy), SetBusy(c, busy))
  {
    hide SFrame, Accepts, PduOf, Reports;
    NoReports(SetBusy(c, busy).out);
  }

  lemma CallEndGoes(c: Conn, e: Event)
    requires e.Dial? || e.Hangup?
    ensures ByTable(c, e, Step(c, e))
  {
    hide UFrame, Clear, SetPath, Accepts, PduOf;
    NoReports(Step(c, e).out);
  }

  lemma SendGoes(c: Conn, data: seq<byte>)
    ensures ByTable(c, Send(data), SendData(c, data))
  {
    hide SendPending, Enqueue, CanQueue, Accepts, PduOf;
    SendPendingGoes(Queued(c, data));
  }

  /** The link table: for every state and event the state after it, the tries, whether the call is reported, and every
      error and reset that the application hears of. */
  lemma StepGoes(c: Conn, e: Event)
    ensures ByTable(c, e, Step(c, e))
  {
    hide ByTable, OnFrame, OnT1, OnT2, OnT3, Connect, SendData, Shutdown, SetBusy;
    match e
    case Arrive(f, refuse) => FrameGoes(c, f, refuse);
    case T1(late) => T1Goes(c, late);
    case Send(data) => SendGoes(c, data);
    case Dial(_, _) => CallEndGoes(c, e);
    case Hangup => CallEndGoes(c, e);
    case T2(late) => T2Goes(c, late);
    case T3(late) => T3Goes(c, late);
    case Busy(busy) => BusyGoes(c, busy);
  }
}

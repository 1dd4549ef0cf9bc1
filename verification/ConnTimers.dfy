/** What the timers guarantee: owed acknowledgements, the end of a silent session, and how sessions end. */
module ConnTimers {
  import opened Ax25Types
  import opened TxWindow
  import opened ConnSpec
  import opened ConnInvariants
  import opened ConnEffects

  // ---- Every unreported reception has T2 running ------------------------------------------------

  predicate CarriesNr(a: Action) { a.Transmit? && (PduOf(a.frame).Info? || PduOf(a.frame).Sup?) }

  /** The last N(R) in `out`, or `before` when it has none. */
  function LastNr(out: seq<Action>, before: Seq8): Seq8 {
    if out == [] then before
    else
      var a := out[|out| - 1];
      if CarriesNr(a) then (if PduOf(a.frame).Info? then PduOf(a.frame).nr else PduOf(a.frame).snr)
      else LastNr(out[..|out| - 1], before)
  }

  /** The step opens the link or, on a SABM, resets it. */
  predicate Restarts(c: Conn, e: Event) {
    !Live(c) || (e.Arrive? && Accepts(c, e.frame) && PduOf(e.frame).Unnum? && PduOf(e.frame).ukind == SABM)
  }

  /** The N(R) the peer has been told after the step; a new or reset link starts from zero. */
  function Told(c: Conn, e: Event, told: Seq8): Seq8 {
    LastNr(Step(c, e).out, if Restarts(c, e) then 0 else told)
  }

  /** If the peer has not been told V(R), an acknowledgement is pending and T2 is armed. */
  predicate AckInv(c: Conn, told: Seq8) { Live(c) ==> told == c.vr || (c.ackPending && c.t2) }

  /** No pending acknowledgement is forgotten and V(R) does not move without one. */
  predicate AckKept(c: Conn, d: Conn) {
    (d.vr == c.vr && (c.ackPending && c.t2 ==> d.ackPending && d.t2)) || (d.ackPending && d.t2)
  }

  /** The step reports V(R), or keeps the obligation to do so. */
  ghost predicate Reports(c: Conn, o: Outcome) {
    && (forall a :: a in o.out && CarriesNr(a) ==>
       (if PduOf(a.frame).Info? then PduOf(a.frame).nr else PduOf(a.frame).snr) == o.conn.vr)
    && ((exists a :: a in o.out && CarriesNr(a)) || AckKept(c, o.conn))
  }

  lemma LastNrMeaning(out: seq<Action>, before: Seq8, nr: Seq8)
    requires forall a :: a in out && CarriesNr(a) ==>
             (if PduOf(a.frame).Info? then PduOf(a.frame).nr else PduOf(a.frame).snr) == nr
    ensures (exists a :: a in out && CarriesNr(a)) ==> LastNr(out, before) == nr
    ensures !(exists a :: a in out && CarriesNr(a)) ==> LastNr(out, before) == before
  {
    hide CarriesNr, PduOf;
    if out != [] {
      assert out[|out| - 1] in out;
      assert forall a :: a in out[..|out| - 1] ==> a in out;
      assert forall a :: a in out ==> a in out[..|out| - 1] || a == out[|out| - 1];
      if !CarriesNr(out[|out| - 1]) { LastNrMeaning(out[..|out| - 1], before, nr); }
    }
  }

  lemma EmitsReport(c: Conn, o: Outcome)
    requires Emits(o.conn, o.out) && ((exists a :: a in o.out && CarriesNr(a)) || AckKept(c, o.conn))
    ensures Reports(c, o)
  {
    hide PduOf;
  }

  lemma AckCarries(c: Conn, pf: bool, command: bool, k: SupKind)
    requires !k.OtherS?
    ensures CarriesNr(Ack(c, pf, command)) && CarriesNr(SFrame(c, k, pf, command))
  {
    hide PduOf, SControl;
    SFrameDecodes(c, RR, pf, command);
    SFrameDecodes(c, RNR, pf, command);
    SFrameDecodes(c, k, pf, command);
  }

  lemma SendPendingReports(c: Conn)
    requires TxInv(c.tx, c.cfg.window) && Live(c)
    ensures var r := SendPending(c); r == (c, []) || (exists a :: a in r.1 && CarriesNr(a))
  {
    hide PduOf, IControl, TxInv;
    SendPendingEmits(c);
    UnsentIsBacklog(c.tx, c.cfg.window);
    var (d, out) := SendPending(c);
    if out != [] {
      var s := Sent(c)[0];
      assert out[0] == IFrame(c, s, c.tx.queue[s].data);
      assert out[0] in out;
      UnsentMembers(c.tx.queue, c.tx.va, c.tx.vs);
      assert s in Unsent(c.tx.queue, c.tx.va, c.tx.vs);
      InfoCarries(c, s);
    }
  }

  lemma InfoCarries(c: Conn, s: Seq8)
    requires TxInv(c.tx, c.cfg.window) && c.tx.queue[s].inUse
    ensures CarriesNr(IFrame(c, s, c.tx.queue[s].data))
  {
    hide PduOf, IControl;
    IFrameDecodes(c, s, c.tx.queue[s].data);
  }

  lemma ReceiveReports(c: Conn, ns: Seq8, pf: bool, payload: seq<byte>)
    ensures var (d, out) := Receive(c, ns, pf, payload); (exists a :: a in out && CarriesNr(a)) || AckKept(c, d)
  {
    hide CarriesNr, Ack, SFrame;
    var (d, out) := Receive(c, ns, pf, payload);
    AckCarries(c, true, false, RR);
    AckCarries(d, true, false, RR);
    AckCarries(c, pf, false, REJ);
    AckCarries(c.(vr := Next(c.vr), rejSent := false), true, false, RR);
    if out != [] { assert out[|out| - 1] in out; }
  }

  lemma SomeIn(a: seq<Action>, b: seq<Action>)
    ensures (exists x :: x in a && CarriesNr(x)) ==> exists x :: x in a + b && CarriesNr(x)
    ensures (exists x :: x in b && CarriesNr(x)) ==> exists x :: x in a + b && CarriesNr(x)
  {
    hide CarriesNr;
    if x :| x in a && CarriesNr(x) { assert x in a + b; }
    if x :| x in b && CarriesNr(x) { assert x in a + b; }
  }

  /** A supervisory frame moves neither V(R) nor the pending acknowledgement, unless it sends an I frame. */
  lemma SupReports(c: Conn, k: SupKind, nr: Seq8, pf: bool, command: bool)
    requires Inv(c) && Live(c) && IsValidNr(c.tx, nr)
    ensures Reports(c, if c.state == Connected then ConnectedSup(c, k, nr, pf, command)
            else RecoverySup(c, k, nr, pf, command))
  {
    hide Inv, PduOf, CarriesNr, SendPending, HandleNr, MarkUnsent, AckIfPolled, Advances, TxInv, Emitted, IsValidNr,
        Prepared, Restarted;
    if c.state == Connected {
      ConnectedSupEffect(c, k, nr, pf, command);
      ConnectedSupSpeaks(c, k, nr, pf, command);
      AdvancesReports(c, ConnectedSup(c, k, nr, pf, command), nr, false, []);
    } else {
      RecoverySupEffect(c, k, nr, pf, command);
      RecoverySupSpeaks(c, k, nr, pf, command);
      AdvancesReports(c, RecoverySup(c, k, nr, pf, command), nr, false, []);
    }
  }

  lemma AdvancesReports(c: Conn, o: Outcome, nr: Seq8, consumed: bool, payload: seq<byte>)
    requires Advances(c, o, nr, consumed, payload) && ((exists a :: a in o.out && CarriesNr(a)) || AckKept(c, o.conn))
    ensures Reports(c, o)
  {
    hide CarriesNr, Emitted;
    EmitsReport(c, o);
  }

  lemma ConnectedSupSpeaks(c: Conn, k: SupKind, nr: Seq8, pf: bool, command: bool)
    requires Inv(c) && c.state == Connected && IsValidNr(c.tx, nr)
    ensures var o := ConnectedSup(c, k, nr, pf, command); (exists a :: a in o.out && CarriesNr(a)) || AckKept(c, o.conn)
  {
    hide Inv, TxInv, PduOf, CarriesNr, Resumed, HandleNr, MarkUnsent, AckIfPolled, IsValidNr;
    HandleNrAcks(c, nr);
    HandleNrKeeps(c, nr);
    var d := HandleNr(c, nr);
    MarkUnsentAcks(c, d, nr, nr);
    ResumedSpeaks(d, d.tx, pf, command);
    ResumedSpeaks(d, MarkUnsent(d.tx, nr), pf, command);
  }

  lemma ResumedSpeaks(c: Conn, w: Tx, pf: bool, command: bool)
    requires TxInv(w, c.cfg.window) && Live(c)
    ensures var o := Resumed(c, w, pf, command); (exists a :: a in o.out && CarriesNr(a)) || AckKept(c, o.conn)
  {
    hide TxInv, CarriesNr, SendPending, AckIfPolled;
    var c1 := c.(peerBusy := false);
    SendPendingReports(c1.(tx := w));
    SomeIn(AckIfPolled(c1, pf, command), SendPending(c1.(tx := w)).1);
  }

  lemma RecoverySupSpeaks(c: Conn, k: SupKind, nr: Seq8, pf: bool, command: bool)
    requires Inv(c) && c.state == TimerRecovery && IsValidNr(c.tx, nr)
    ensures var o := RecoverySup(c, k, nr, pf, command); (exists a :: a in o.out && CarriesNr(a)) || AckKept(c, o.conn)
  {
    hide Inv, TxInv, CarriesNr, SendPending, AckIfPolled, IsValidNr, Prepared, Restarted;
    var final := pf && !command;
    var d := Prepared(c, k, nr, final);
    var again := d.tx.va != d.tx.vs && (final || k.REJ?);
    PreparedAcks(c, k, nr, final);
    PreparedFlags(c, k, nr, final);
    var e := d.(t3 := d.t3 && d.state != Connected);
    SendPendingReports(e);
    RestartedShape(d, again);
    RestartedFlags(d, again);
    SomeIn(if k.OtherS? then [] else AckIfPolled(d, pf, command), Restarted(d, again).1);
  }

  lemma PreparedFlags(c: Conn, k: SupKind, nr: Seq8, final: bool)
    requires Inv(c) && c.state == TimerRecovery && IsValidNr(c.tx, nr)
    ensures Prepared(c, k, nr, final).ackPending == c.ackPending && Prepared(c, k, nr, final).t2 == c.t2
            && Prepared(c, k, nr, final).vr == c.vr
  {
    hide Inv, TxInv, HandleNr, MarkUnsent, IsValidNr, Noted;
    HandleNrKeeps(c, nr);
    NotedFlags(if final then Recovered(HandleNr(c, nr)) else HandleNr(c, nr), k, nr);
  }

  lemma NotedFlags(c: Conn, k: SupKind, nr: Seq8)
    ensures var d := Noted(c, k, nr); d == c.(peerBusy := d.peerBusy, tx := d.tx)
  {
  }

  lemma RestartedFlags(d: Conn, again: bool)
    ensures var (g, sent) := Restarted(d, again);
            sent == [] ==> g.t2 == d.t2 && g.vr == d.vr && g.ackPending == d.ackPending
  {
    hide Unsent, MarkSent;
  }

  lemma InfoReports(c: Conn, ns: Seq8, nr: Seq8, pf: bool, payload: seq<byte>)
    requires Inv(c) && Live(c) && IsValidNr(c.tx, nr)
    ensures Reports(c, if c.state == Connected then ConnectedInfo(c, ns, nr, pf, payload)
            else RecoveryInfo(c, ns, nr, pf, payload))
  {
    hide Inv, TxInv, PduOf, CarriesNr, SendPending, HandleNr, ConnSpec.Receive, Emitted, IsValidNr, Advances, Emits;
    var o := if c.state == Connected then ConnectedInfo(c, ns, nr, pf, payload)
        else RecoveryInfo(c, ns, nr, pf, payload);
    InfoEffect(c, ns, nr, pf, payload);
    HandleNrKeeps(c, nr);
    var c1 := HandleNr(c, nr).(peerBusy := false);
    ReceiveReports(c1, ns, pf, payload);
    ReceiveKeeps(c1, ns, pf, payload);
    var (d, out) := ConnSpec.Receive(c1, ns, pf, payload);
    var e := if ns == c.vr then d.(t3 := true) else d;
    HandleNrAcks(c, nr);
    SendPendingReports(e);
    SomeIn(out, SendPending(e).1);
    AdvancesReports(c, o, nr, Consumes(c, ns), payload);
  }

  lemma OneReport(c: Conn, d: Conn, a: Action)
    requires a.Transmit? && CarriesNr(a) && Emitted(d, a.frame)
    ensures Reports(c, Outcome(d, [a], OK, false))
  {
    hide CarriesNr;
    EmitsReport(c, Outcome(d, [a], OK, false)) by {
      assert a in [a];
    }
  }

  lemma PollReports(c: Conn, b: Conn, late: bool)
    requires Live(c) && Live(b) && SamePeers(c, b) && b.vr == c.vr
    requires b.state == TimerRecovery && Live(PollPeer(b).conn)
    ensures Reports(c, PollPeer(b))
  {
    hide CarriesNr, Emitted, SFrame, Clear, Reports;
    var d := PollPeer(b).conn;
    SFrameEmits(b, d, RR, true, true);
    AckCarries(b, true, true, RR);
    OneReport(c, d, SFrame(b, RR, true, true));
  }

  lemma T1Reports(c: Conn, late: bool)
    requires Live(c) && Live(OnT1(c, late).conn)
    ensures Reports(c, OnT1(c, late))
  {
    hide Reports, PollPeer;
    var b := c.(t1 := c.t1 && late);
    PollReports(c, if c.state == Connected then b.(state := TimerRecovery, retry := 0) else b, late);
  }

  lemma T2Reports(c: Conn, late: bool)
    requires Live(c)
    ensures Reports(c, OnT2(c, late))
  {
    hide CarriesNr, Emitted, Ack;
    var b := c.(t2 := c.t2 && late);
    var d := OnT2(c, late).conn;
    if c.ackPending {
      AckEmits(b, d, false, false);
      AckCarries(b, false, false, RR);
      OneReport(c, d, Ack(b, false, false));
    }
    else { EmitsReport(c, Quiet(b)); }
  }

  lemma T3Reports(c: Conn, late: bool)
    requires Live(c)
    ensures Reports(c, OnT3(c, late))
  {
    hide CarriesNr, Emitted, SFrame;
    var b := c.(t3 := c.t3 && late);
    var d := OnT3(c, late).conn;
    if c.state == Connected {
      SFrameEmits(b, d, RR, true, true);
      AckCarries(b, true, true, RR);
      OneReport(c, d, SFrame(b, RR, true, true));
    }
    else { EmitsReport(c, Quiet(b)); }
  }

  lemma CallReports(c: Conn, e: Event)
    requires Inv(c) && Live(c) && (e.Dial? || e.Hangup? || e.Busy? || e.Send?) && Live(Step(c, e).conn)
    ensures Reports(c, Step(c, e))
  {
    hide TxInv, CarriesNr, Emitted, SFrame, SendPending, InFlight, Backlog;
    var o := Step(c, e);
    match e
    case Busy(busy) =>
      if c.localBusy != busy {
        var b := c.(localBusy := busy);
        var k := if busy then RNR else RR;
        SFrameEmits(b, o.conn, k, false, false);
        AckCarries(b, false, false, k);
        OneReport(c, o.conn, SFrame(b, k, false, false));
      }
    case Send(data) =>
      SendEffect(c, data);
      if o.code == OK {
        var c1 := Queued(c, data);
        EnqueueKeeps(c.tx, data, c.cfg.window);
        SendPendingReports(c1);
        EmitsReport(c, o);
      }
    case _ =>
  }

  lemma ReportTells(c: Conn, e: Event, told: Seq8)
    requires Live(c) && AckInv(c, told) && Reports(c, Step(c, e)) && !Restarts(c, e)
    ensures AckInv(Step(c, e).conn, Told(c, e, told))
  {
    hide CarriesNr, PduOf, Step, Restarts;
    LastNrMeaning(Step(c, e).out, told, Step(c, e).conn.vr);
  }

  /** Opening or resetting the link: V(R) is zero, and the only frame sent is UA. */
  ghost predicate OpensLink(o: Outcome, p: Pdu) {
    Live(o.conn) ==> o.conn.vr == 0 && forall a :: a in o.out && a.Transmit? ==>
        p.Unnum?
        && a == UFrame(o.conn, UA, p.upf)
  }

  lemma DisconnectedOpens(c: Conn, f: Frame, refuse: bool)
    requires c.state == Disconnected
    ensures OpensLink(HandleDisconnected(c, f, refuse), PduOf(f))
  {
    hide PduOf, UnnumControl, Clear, SetPath;
  }

  lemma AwaitingOpens(c: Conn, f: Frame)
    requires c.state == AwaitingConnection
    ensures OpensLink(HandleAwaitingConnection(c, f), PduOf(f))
  {
    hide PduOf, UnnumControl, Clear, SetPath;
  }

  lemma ResetOpens(c: Conn, f: Frame)
    requires Live(c) && PduOf(f).Unnum? && PduOf(f).ukind == SABM
    ensures OpensLink(HandleLive(c, f), PduOf(f))
  {
    hide PduOf, UnnumControl, Clear, SetPath;
  }

  lemma Opens(c: Conn, f: Frame, refuse: bool)
    requires !Live(c) || (PduOf(f).Unnum? && PduOf(f).ukind == SABM)
    ensures OpensLink(Dispatch(c, f, refuse), PduOf(f))
  {
    hide PduOf, OpensLink, HandleDisconnected, HandleAwaitingConnection, HandleLive;
    match c.state
    case Disconnected => DisconnectedOpens(c, f, refuse);
    case AwaitingConnection => AwaitingOpens(c, f);
    case AwaitingRelease => ReleaseStays(c, f);
    case _ => ResetOpens(c, f);
  }

  lemma ReleaseStays(c: Conn, f: Frame)
    requires c.state == AwaitingRelease
    ensures OpensLink(HandleAwaitingRelease(c, f), PduOf(f))
  {
    hide PduOf, UFrame, Clear;
  }

  lemma RestartTells(c: Conn, e: Event, told: Seq8)
    requires Restarts(c, e) && Live(Step(c, e).conn)
    ensures AckInv(Step(c, e).conn, Told(c, e, told))
  {
    hide CarriesNr, UFrame, PduOf, Dispatch, LastNr, Step;
    var o := Step(c, e);
    OnlyArrivalsOpen(c, e);
    Opens(c, e.frame, e.refuse);
    OpeningSilent(o, PduOf(e.frame));
    LastNrMeaning(o.out, 0, 0);
  }

  lemma OnlyArrivalsOpen(c: Conn, e: Event)
    requires Restarts(c, e) && Live(Step(c, e).conn)
    ensures e.Arrive? && Step(c, e) == Dispatch(c, e.frame, e.refuse)
  {
    hide PduOf, Dispatch, T1Expired, OnT2, OnT3, Call, Shutdown, SetBusy;
    if !Live(c) {
      match e
      case T1(late) => T1StaysClosed(c.(t1 := c.t1 && late));
      case Dial(remote, digis) => CallStaysClosed(c, remote, digis);
      case Arrive(f, refuse) =>
      case _ => OthersStayClosed(c, e);
    }
  }

  lemma T1StaysClosed(c: Conn)
    requires !Live(c)
    ensures !Live(T1Expired(c).conn)
  {
    hide UFrame, Clear;
  }

  lemma CallStaysClosed(c: Conn, remote: Address, digis: seq<Address>)
    ensures !Live(Call(c, remote, digis).conn)
  {
    hide UFrame, Reset, SetPath;
  }

  lemma OthersStayClosed(c: Conn, e: Event)
    requires !Live(c) && (e.T2? || e.T3? || e.Hangup? || e.Busy? || e.Send?)
    ensures !Live(Step(c, e).conn)
  {
    hide UFrame, SFrame, Ack;
  }

  lemma OpeningSilent(o: Outcome, pdu: Pdu)
    requires OpensLink(o, pdu) && Live(o.conn)
    ensures forall a :: a in o.out ==> !CarriesNr(a)
  {
    hide CarriesNr, UFrame;
    forall a | a in o.out ensures !CarriesNr(a) {
      if a.Transmit? { UFrameTells(o.conn, pdu.upf); } else { NotAFrame(a); }
    }
  }

  lemma NotAFrame(a: Action)
    requires !a.Transmit?
    ensures !CarriesNr(a)
  {
  }

  lemma UFrameTells(c: Conn, pf: bool)
    ensures !CarriesNr(UFrame(c, UA, pf))
  {
    hide PduOf, UnnumControl;
    UFrameDecodes(c, UA, pf);
  }

  lemma LiveFrameReports(c: Conn, f: Frame)
    requires Inv(c) && Live(c) && Live(HandleLive(c, f).conn) && !(PduOf(f).Unnum? && PduOf(f).ukind == SABM)
    ensures Reports(c, HandleLive(c, f))
  {
    hide Inv, PduOf, CarriesNr, Clear, SendPending, HandleNr, Prepared, Restarted, IsValidNr, ConnSpec.Receive,
        Reports, Emitted;
    match PduOf(f)
    case NoPdu => EmitsReport(c, Quiet(c));
    case Unnum(k, pf) => EmitsReport(c, Quiet(c));
    case Sup(k, nr, pf, command) => if IsValidNr(c.tx, nr) { SupReports(c, k, nr, pf, command); }
    case Info(ns, nr, pf, payload) => if IsValidNr(c.tx, nr) { InfoReports(c, ns, nr, pf, payload); }
  }

  /** Every step of a session keeps the promise: a V(R) the peer has not been told has T2 running for it. */
  lemma StepTells(c: Conn, e: Event, told: Seq8)
    requires Inv(c) && AckInv(c, told)
    ensures AckInv(Step(c, e).conn, Told(c, e, told))
  {
    hide Inv, PduOf, CarriesNr, LastNr, HandleLive, OnT1, OnT2, OnT3, SendData, SetBusy, Shutdown, Connect, Reports;
    var o := Step(c, e);
    if !Live(o.conn) {
    } else if Restarts(c, e) {
      RestartTells(c, e, told);
    } else {
      match e
      case Arrive(f, refuse) =>
        if Accepts(c, f) { LiveFrameReports(c, f); } else { QuietReports(c); }
        ReportTells(c, e, told);
      case T1(late) => T1Reports(c, late); ReportTells(c, e, told);
      case T2(late) => T2Reports(c, late); ReportTells(c, e, told);
      case T3(late) => T3Reports(c, late); ReportTells(c, e, told);
      case _ => CallReports(c, e); ReportTells(c, e, told);
    }
  }

  lemma QuietReports(c: Conn)
    ensures Reports(c, Quiet(c))
  {
  }

  // ---- Over runs ---------------------------------------------------------------------------------------------

  /** The N(R) the peer has been told at the end of a run. */
  function ToldOver(c: Conn, es: seq<Event>, told: Seq8): Seq8
    decreases |es|
  {
    if es == [] then told else ToldOver(Step(c, es[0]).conn, es[1..], Told(c, es[0], told))
  }

  /** In every state that a new session can reach, a V(R) the peer has not been told has T2 running for it. */
  lemma {:induction false} RunTells(c: Conn, es: seq<Event>, told: Seq8)
    requires Inv(c) && AckInv(c, told)
    ensures Inv(Run(c, es).0) && AckInv(Run(c, es).0, ToldOver(c, es, told))
    decreases |es|
  {
    hide Inv, AckInv, Step, Told;
    if es != [] {
      StepKeeps(c, es[0]);
      StepTells(c, es[0], told);
      RunTells(Step(c, es[0]).conn, es[1..], Told(c, es[0], told));
    }
  }

  lemma NewSessionTells(local: Address, n2: nat, window: nat, es: seq<Event>)
    ensures var c := Init(local, n2, window);
            var d := Run(c, es).0;
            Live(d) && d.vr != ToldOver(c, es, 0) ==> d.ackPending && d.t2
  {
    hide Inv, Step;
    InitInv(local, n2, window);
    RunTells(Init(local, n2, window), es, 0);
  }
}

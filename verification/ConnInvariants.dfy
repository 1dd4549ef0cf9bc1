/** What every step of one session keeps, whatever the peer sends and whenever timers fire. */
module ConnInvariants {
  import opened Ax25Types
  import opened TxWindow
  import opened ConnSpec

  /** The watchdogs, without the promise that the backlog is empty. */
  ghost predicate WatchInv(c: Conn) {
    && (Live(c) && InFlight(c.tx) ==> c.t1)
    && (c.state == Connected ==> c.t1 || c.t3)
    && (c.state != Connected && c.state != Disconnected ==> c.t1)
    && (c.state == Disconnected ==> !c.t1 && !c.t2 && !c.t3)
    && c.retry <= c.cfg.n2
  }

  /** No obligation without a timer. */
  ghost predicate TimerInv(c: Conn) {
    && WatchInv(c)
    && (c.state == Connected && !c.peerBusy ==> !Backlog(c.tx))
  }

  ghost predicate Inv(c: Conn) { TxInv(c.tx, c.cfg.window) && TimerInv(c) }

  predicate SameSetup(c: Conn, d: Conn) { c.cfg == d.cfg && c.peer.local == d.peer.local }

  /** The most actions one locked section defers; the source's buffer holds twelve. */
  function DeferBound(c: Conn): nat { if c.cfg.window + 2 > 4 then c.cfg.window + 2 else 4 }

  ghost predicate Keeps(c: Conn, o: Outcome) {
    Inv(o.conn) && SameSetup(c, o.conn) && |o.out| <= DeferBound(c)
  }

  // ---- Building blocks ---------------------------------------------------------------------------

  lemma SendPendingKeeps(c: Conn)
    requires TxInv(c.tx, c.cfg.window) && Live(c) && WatchInv(c)
    ensures var r := SendPending(c);
            Inv(r.0) && r.0 == c.(tx := r.0.tx, ackPending := r.0.ackPending, t1 := r.0.t1, t3 := r.0.t3)
            && |r.1| <= c.cfg.window && (c.t1 ==> r.0.t1)
  {
    UnsentIsBacklog(c.tx, c.cfg.window);
    MarkSentKeeps(c.tx, c.cfg.window);
  }

  lemma HandleNrKeeps(c: Conn, nr: Seq8)
    requires Inv(c) && Live(c) && IsValidNr(c.tx, nr)
    ensures Inv(HandleNr(c, nr))
    ensures var d := HandleNr(c, nr); d == c.(tx := Retire(c.tx, nr), t1 := d.t1, t3 := d.t3)
  {
    RetireKeeps(c.tx, nr, c.cfg.window);
  }

  lemma LeaveKeeps(c: Conn, first: seq<Action>)
    requires |first| <= 2
    ensures Keeps(c, Leave(c, first))
  {
    hide TxInv, InFlight, Backlog;
    ClearKeeps(c.tx, c.cfg.window);
  }

  /** A reset that opens or reopens the session. */
  lemma RestartKeeps(c: Conn, c': Conn)
    requires c' == Reset(c).(state := c'.state, t1 := c'.t1, t2 := c'.t2, t3 := c'.t3, peer := c'.peer)
    requires c'.peer.local == c.peer.local
    requires (c'.state == Connected && c'.t3) || (c'.state == AwaitingConnection && c'.t1)
    ensures Inv(c') && SameSetup(c, c')
  {
    hide TxInv, InFlight, Backlog;
    ClearKeeps(c.tx, c.cfg.window);
  }

  // ---- One lemma for each handler ------------------------------------------------------------------

  lemma NrErrorKeeps(c: Conn)
    ensures Keeps(c, NrErrorRecovery(c))
  {
    RestartKeeps(StopTimers(c), NrErrorRecovery(c).conn);
  }

  lemma DisconnectedKeeps(c: Conn, f: Frame, refuse: bool)
    requires Inv(c) && c.state == Disconnected
    ensures Keeps(c, HandleDisconnected(c, f, refuse))
  {
    hide Inv, UFrame, PduOf, SetPath, Leave, Clear;
    var p := PduOf(f);
    var o := HandleDisconnected(c, f, refuse);
    if p.Unnum? && p.ukind == SABM {
      var c1 := SetPath(c.(peer := c.peer.(remote := f.source, remoteSet := true)), f.digipeaters);
      if refuse { LeaveKeeps(c1, [UFrame(c1, DM, p.upf)]); } else { RestartKeeps(c1, o.conn); }
    }
  }

  /** UA or SABM while waiting for the connection. */
  lemma JoinKeeps(c: Conn, f: Frame)
    requires c.state == AwaitingConnection && PduOf(f).Unnum?
    requires PduOf(f).ukind == SABM || (PduOf(f).ukind == UA && PduOf(f).upf)
    ensures Keeps(c, HandleAwaitingConnection(c, f))
  {
    hide Inv, UFrame, PduOf, SetPath, Clear;
    var o := HandleAwaitingConnection(c, f);
    if PduOf(f).ukind == SABM { RestartKeeps(SetPath(c, f.digipeaters), o.conn); }
    else { RestartKeeps(c.(t1 := false), o.conn); }
  }

  lemma AwaitingConnectionKeeps(c: Conn, f: Frame)
    requires Inv(c) && c.state == AwaitingConnection
    ensures Keeps(c, HandleAwaitingConnection(c, f))
  {
    hide Inv, UFrame, PduOf, SetPath, Leave, Reset;
    var p := PduOf(f);
    if p.Unnum? && (p.ukind == SABM || (p.ukind == UA && p.upf)) { JoinKeeps(c, f); }
    else if p.Unnum? && p.ukind == DM { LeaveKeeps(c, [Fail(Refused, c.retry)]); }
  }

  lemma AwaitingReleaseKeeps(c: Conn, f: Frame)
    requires Inv(c) && c.state == AwaitingRelease
    ensures Keeps(c, HandleAwaitingRelease(c, f))
  {
    hide Inv, UFrame, Leave, PduOf, NormalPath, Clear;
    match PduOf(f)
    case Unnum(UA, _) => LeaveKeeps(c, []);
    case Unnum(DM, _) => LeaveKeeps(c, []);
    case Unnum(DISC, pf) => LeaveKeeps(c, [UFrame(c, UA, pf)]);
    case _ =>
  }

  lemma LiveUnnumKeeps(c: Conn, f: Frame, k: UnnumKind, pf: bool)
    requires Inv(c) && Live(c)
    ensures Keeps(c, LiveUnnum(c, f, k, pf))
  {
    hide Inv, UFrame, Leave, PduOf, NormalPath, Clear;
    match k
    case SABM => RestartKeeps(c, LiveUnnum(c, f, k, pf).conn);
    case FRMR => RestartKeeps(c, LiveUnnum(c, f, k, pf).conn);
    case DISC => LeaveKeeps(c, [UFrame(c, UA, pf)]);
    case DM => LeaveKeeps(c, [Fail(DmReceived, c.retry)]);
    case _ =>
  }

  lemma ConnectedSupKeeps(c: Conn, k: SupKind, nr: Seq8, pf: bool, command: bool)
    requires Inv(c) && c.state == Connected && IsValidNr(c.tx, nr)
    ensures Keeps(c, ConnectedSup(c, k, nr, pf, command))
  {
    hide Inv, HandleNr, Supervised;
    HandleNrKeeps(c, nr);
    SupervisedKeeps(HandleNr(c, nr), k, nr, pf, command);
  }

  lemma SupervisedKeeps(c: Conn, k: SupKind, nr: Seq8, pf: bool, command: bool)
    requires Inv(c) && c.state == Connected
    ensures Keeps(c, Supervised(c, k, nr, pf, command))
  {
    hide TxInv, InFlight, Backlog, Resumed, Ack, MarkUnsent;
    match k
    case RR => ResumedKeeps(c, c.tx, pf, command);
    case REJ =>
      MarkUnsentKeeps(c.tx, nr, c.cfg.window);
      ResumedKeeps(c, MarkUnsent(c.tx, nr), pf, command);
    case _ =>
  }

  lemma ResumedKeeps(c: Conn, w: Tx, pf: bool, command: bool)
    requires TxInv(w, c.cfg.window) && c.state == Connected && WatchInv(c.(tx := w))
    ensures var o := Resumed(c, w, pf, command); Inv(o.conn) && SameSetup(c, o.conn) && |o.out| <= c.cfg.window + 1
  {
    hide TxInv, InFlight, Backlog, SendPending, Ack;
    SendPendingKeeps(c.(peerBusy := false, tx := w));
  }

  lemma RecoveredKeeps(c: Conn)
    requires Inv(c)
    ensures TxInv(Recovered(c).tx, c.cfg.window) && !InFlight(Recovered(c).tx)
  {
    hide TxInv, InFlight, MarkUnsent;
    MarkUnsentKeeps(c.tx, c.tx.va, c.cfg.window);
    if c.tx.va == c.tx.vs { IdleWindow(c.tx, c.cfg.window); }
  }

  lemma PreparedKeeps(c: Conn, k: SupKind, nr: Seq8, final: bool)
    requires Inv(c) && c.state == TimerRecovery && IsValidNr(c.tx, nr)
    ensures var d := Prepared(c, k, nr, final);
            TxInv(d.tx, c.cfg.window) && SameSetup(c, d) && d.retry <= d.cfg.n2
            && d.state == (if final then Connected else TimerRecovery)
            && (!final ==> d.t1) && (final ==> !InFlight(d.tx))
  {
    hide TxInv, InFlight, Backlog, MarkUnsent, HandleNr, Retire;
    HandleNrKeeps(c, nr);
    var c1 := HandleNr(c, nr);
    RecoveredKeeps(c1);
    var c2 := if final then Recovered(c1) else c1;
    MarkUnsentKeeps(c2.tx, nr, c.cfg.window);
  }

  lemma IdleWindow(w: Tx, k: nat)
    requires TxInv(w, k) && w.va == w.vs
    ensures !InFlight(w) && !Backlog(w)
  {
  }

  lemma RestartedKeeps(d: Conn, again: bool)
    requires TxInv(d.tx, d.cfg.window) && Live(d) && d.retry <= d.cfg.n2
    requires d.state == TimerRecovery ==> d.t1
    requires d.state == Connected ==> !InFlight(d.tx) && (d.tx.va != d.tx.vs ==> again)
    ensures Inv(Restarted(d, again).0) && SameSetup(d, Restarted(d, again).0) && |Restarted(d, again).1| <= d.cfg.window
  {
    hide TxInv, InFlight, Backlog, SendPending;
    if d.state == Connected && d.tx.va == d.tx.vs { IdleWindow(d.tx, d.cfg.window); }
    else if d.state == Connected {
      var e := d.(t3 := false);
      SendPendingArm(e);
      SendPendingKeeps(e.(t1 := true));
    }
    else { SendPendingKeeps(d); }
  }

  /** Arming T1 before or after the retransmission makes no difference. */
  lemma SendPendingArm(c: Conn)
    ensures SendPending(c.(t1 := true)).0 == SendPending(c).0.(t1 := true)
    ensures SendPending(c.(t1 := true)).1 == SendPending(c).1
  {
    assert Sent(c.(t1 := true)) == Sent(c);
    assert IFrames(c.(t1 := true), Sent(c)) == IFrames(c, Sent(c));
  }

  lemma RecoverySupKeeps(c: Conn, k: SupKind, nr: Seq8, pf: bool, command: bool)
    requires Inv(c) && c.state == TimerRecovery && IsValidNr(c.tx, nr)
    ensures Keeps(c, RecoverySup(c, k, nr, pf, command))
  {
    hide TxInv, InFlight, Backlog, Prepared, Restarted, Ack;
    var final := pf && !command;
    var d := Prepared(c, k, nr, final);
    PreparedKeeps(c, k, nr, final);
    RestartedKeeps(d, d.tx.va != d.tx.vs && (final || k.REJ?));
  }

  lemma ReceiveKeeps(c: Conn, ns: Seq8, pf: bool, payload: seq<byte>)
    ensures var r := Receive(c, ns, pf, payload);
            |r.1| <= 2 && r.0 == c.(vr := r.0.vr, rejSent := r.0.rejSent, ackPending := r.0.ackPending, t2 := r.0.t2)
  {
  }

  lemma InfoKeeps(c: Conn, ns: Seq8, nr: Seq8, pf: bool, payload: seq<byte>)
    requires Inv(c) && Live(c) && IsValidNr(c.tx, nr)
    ensures Keeps(c, if c.state == Connected then ConnectedInfo(c, ns, nr, pf, payload)
            else RecoveryInfo(c, ns, nr, pf, payload))
  {
    hide TxInv, InFlight, Backlog, SendPending, HandleNr, Receive;
    HandleNrKeeps(c, nr);
    var c1 := HandleNr(c, nr).(peerBusy := false);
    ReceiveKeeps(c1, ns, pf, payload);
    if c.state == Connected {
      var c2 := Receive(c1, ns, pf, payload).0;
      SendPendingKeeps(if ns == c.vr then c2.(t3 := true) else c2);
    }
  }

  lemma SendKeeps(c: Conn, data: seq<byte>)
    requires Inv(c)
    ensures Keeps(c, SendData(c, data))
  {
    hide TxInv, InFlight, Backlog, SendPending, Enqueue;
    if 0 < |data| <= MAX_INFO_LEN && Live(c) && CanQueue(c) {
      EnqueueKeeps(c.tx, data, c.cfg.window);
      SendPendingKeeps(Queued(c, data));
    }
  }

  lemma LiveKeeps(c: Conn, f: Frame)
    requires Inv(c) && Live(c)
    ensures Keeps(c, HandleLive(c, f))
  {
    hide Inv, SendPending, HandleNr, NrErrorRecovery, PduOf;
    NrErrorKeeps(c);
    match PduOf(f)
    case Unnum(k, pf) => LiveUnnumKeeps(c, f, k, pf);
    case Sup(k, nr, pf, command) =>
      if IsValidNr(c.tx, nr) {
        if c.state == Connected {
          ConnectedSupKeeps(c, k, nr, pf, command);
        } else {
          RecoverySupKeeps(c, k, nr, pf, command);
        }
      }
    case Info(ns, nr, pf, payload) => if IsValidNr(c.tx, nr) { InfoKeeps(c, ns, nr, pf, payload); }
    case NoPdu =>
  }

  lemma FrameKeeps(c: Conn, f: Frame, refuse: bool)
    requires Inv(c)
    ensures Keeps(c, Dispatch(c, f, refuse))
  {
    hide Inv, HandleDisconnected, HandleAwaitingConnection, HandleAwaitingRelease, HandleLive;
    match c.state
    case Disconnected => DisconnectedKeeps(c, f, refuse);
    case AwaitingConnection => AwaitingConnectionKeeps(c, f);
    case AwaitingRelease => AwaitingReleaseKeeps(c, f);
    case _ => LiveKeeps(c, f);
  }

  lemma PollKeeps(c: Conn)
    requires TxInv(c.tx, c.cfg.window) && c.state == TimerRecovery && c.retry <= c.cfg.n2
    ensures Keeps(c, PollPeer(c))
  {
    hide TxInv, InFlight, Backlog, Leave, UFrame, SFrame;
    if c.retry >= c.cfg.n2 { LeaveKeeps(c, [Fail(LinkFailure, c.retry), UFrame(c, DM, true)]); }
  }

  /** Disarming T1 matters only until the callback re-arms it. */
  lemma DisarmedKeeps(c: Conn, d: Conn)
    requires Inv(c) && d == c.(t1 := d.t1) && (d.t1 ==> c.t1)
    ensures TxInv(d.tx, d.cfg.window) && d.retry <= d.cfg.n2
    ensures Inv(d.(t1 := true, retry := if d.retry < d.cfg.n2 then d.retry + 1 else d.retry)) || d.state == Disconnected
    ensures d.state == Disconnected ==> Inv(d)
  {
  }

  lemma AskKeeps(c: Conn, d: Conn, k: UnnumKind)
    requires Inv(c) && !Live(c) && c.state != Disconnected && c.retry < c.cfg.n2
    requires d == c.(t1 := d.t1) && (k == SABM || k == DISC)
    ensures Keeps(c, AskAgain(d, k))
  {
    hide UFrame, TxInv;
  }

  lemma T1AwaitingKeeps(c: Conn, late: bool)
    requires Inv(c) && (c.state == AwaitingConnection || c.state == AwaitingRelease)
    ensures Keeps(c, OnT1(c, late))
  {
    hide Inv, Leave, UFrame, AskAgain;
    var d := c.(t1 := c.t1 && late);
    DisarmedKeeps(c, d);
    if c.retry < c.cfg.n2 { AskKeeps(c, d, if c.state == AwaitingConnection then SABM else DISC); }
    LeaveKeeps(d, [Fail(if c.state == AwaitingConnection then ConnectTimeout else ReleaseTimeout, c.retry)]);
  }

  lemma T1Keeps(c: Conn, late: bool)
    requires Inv(c)
    ensures Keeps(c, OnT1(c, late))
  {
    hide Keeps, Inv, OnT1;
    if c.state == AwaitingConnection || c.state == AwaitingRelease {
      T1AwaitingKeeps(c, late);
    } else {
      T1OthersKeep(c, late);
    }
  }

  lemma T1OthersKeep(c: Conn, late: bool)
    requires Inv(c) && c.state != AwaitingConnection && c.state != AwaitingRelease
    ensures Keeps(c, OnT1(c, late))
  {
    hide Inv, PollPeer;
    var d := c.(t1 := c.t1 && late);
    DisarmedKeeps(c, d);
    if c.state == Connected { PollKeeps(d.(state := TimerRecovery, retry := 0)); }
    else if c.state == TimerRecovery { PollKeeps(d); }
  }

  lemma OtherTimersKeep(c: Conn, late: bool)
    requires Inv(c)
    ensures Keeps(c, OnT2(c, late)) && Keeps(c, OnT3(c, late))
  {
    hide Keeps, Inv, OnT2, OnT3;
    T2Keeps(c, late);
    T3Keeps(c, late);
  }

  lemma T2Keeps(c: Conn, late: bool)
    requires Inv(c)
    ensures Keeps(c, OnT2(c, late))
  {
    hide TxInv, InFlight, Backlog, Ack;
  }

  lemma T3Keeps(c: Conn, late: bool)
    requires Inv(c)
    ensures Keeps(c, OnT3(c, late))
  {
    hide TxInv, InFlight, Backlog, SFrame;
  }

  lemma CallsKeep(c: Conn, busy: bool)
    requires Inv(c)
    ensures Keeps(c, Shutdown(c)) && Keeps(c, SetBusy(c, busy))
  {
    hide TxInv, InFlight, Backlog, SFrame, UFrame;
  }

  lemma DialKeeps(c: Conn, remote: Address, digis: seq<Address>)
    requires Inv(c)
    ensures Keeps(c, Connect(c, remote, digis))
  {
    hide Inv, UFrame, SetPath, Clear;
    if |digis| <= MAX_DIGIPEATERS && c.state == Disconnected {
      RestartKeeps(SetPath(c.(peer := c.peer.(remote := remote, remoteSet := true)), digis),
          Connect(c, remote, digis).conn);
    }
  }

  // ---- The main results ------------------------------------------------------------------------------

  /** Every step, under any incoming frame, any expiry (late or not) and any call, keeps the ring, the window
      and the timer obligations, and defers at most max(4, k + 2) of the twelve actions. */
  lemma StepKeeps(c: Conn, e: Event)
    requires Inv(c)
    ensures Inv(Step(c, e).conn) && SameSetup(c, Step(c, e).conn)
    ensures |Step(c, e).out| <= DeferBound(c) <= 9
  {
    hide Inv, OnT1, OnT2, OnT3, SendData, SetBusy, Shutdown, Connect, Dispatch, Accepts;
    match e
    case Arrive(f, refuse) => FrameKeeps(c, f, refuse);
    case Send(data) => SendKeeps(c, data);
    case Dial(remote, digis) => DialKeeps(c, remote, digis);
    case T1(late) => T1Keeps(c, late);
    case T2(late) => OtherTimersKeep(c, late);
    case T3(late) => OtherTimersKeep(c, late);
    case Hangup => CallsKeep(c, false);
    case Busy(busy) => CallsKeep(c, busy);
  }

  lemma InitInv(local: Address, n2: nat, window: nat)
    ensures Inv(Init(local, n2, window))
  {
  }

  /** Reachability: the invariants hold after every run from a state that has them. */
  lemma {:induction false} RunKeeps(c: Conn, es: seq<Event>)
    requires Inv(c)
    ensures Inv(Run(c, es).0) && SameSetup(c, Run(c, es).0)
    decreases |es|
  {
    hide Inv, Step;
    if es != [] {
      StepKeeps(c, es[0]);
      RunKeeps(Step(c, es[0]).conn, es[1..]);
    }
  }

  /** The "tx queue slot already in use" branch of `queue_i_frame` is unreachable: only a full window is refused. */
  lemma SlotFreeInsideWindow(c: Conn)
    requires TxInv(c.tx, c.cfg.window)
    ensures CanQueue(c) <==> Outstanding(c.tx) < c.cfg.window
  {
  }
}

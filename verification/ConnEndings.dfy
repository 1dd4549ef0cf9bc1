/** How sessions end: a silent peer is given up after exactly N2 + 1 expiries of T1, a connect attempt sends
    exactly 1 + N2 SABMs, and the application hears of each ending once. */
module ConnEndings {
  import opened Ax25Types
  import opened TxWindow
  import opened ConnSpec
  import opened ConnInvariants
  import opened ConnEffects

  // ---- A silent peer ---------------------------------------------------------------------------

  /** No frame arrives; timers may fire and the application may send data or toggle busy. */
  type SilentEvent = e: Event | e.T1? || e.T2? || e.T3? || e.Send? || e.Busy? witness T1(false)

  function T1Count(es: seq<SilentEvent>): nat {
    if es == [] then 0 else (if es[0].T1? then 1 else 0) + T1Count(es[1..])
  }

  /** The expiries of T1 a silent session survives, plus one. */
  function Budget(c: Conn): nat
    requires c.retry <= c.cfg.n2
  {
    match c.state
    case Disconnected => 0
    case Connected => c.cfg.n2 + 1
    case _ => c.cfg.n2 - c.retry + 1
  }

  /** The step takes `n` from the budget, or what is left of it. */
  predicate Spends(c: Conn, d: Conn, n: nat)
    requires c.retry <= c.cfg.n2
  {
    d.retry <= d.cfg.n2 && d.cfg == c.cfg && Budget(d) == if Budget(c) > n then Budget(c) - n else 0
  }

  /** T1 takes one from the budget; nothing else in a silent session touches it. */
  lemma SilentStep(c: Conn, e: SilentEvent)
    requires c.retry <= c.cfg.n2
    ensures Spends(c, Step(c, e).conn, if e.T1? then 1 else 0)
  {
    hide T1Expired, SendData, OnT2, OnT3, SetBusy, Spends;
    match e
    case T1(late) => SilentT1(c.(t1 := c.t1 && late)); SpendsAs(c, c.(t1 := c.t1 && late), OnT1(c, late).conn);
    case Send(data) => SendKeepsBudget(c, data); SpendsNothing(c, SendData(c, data).conn);
    case T2(late) => SilentT2(c, late);
    case T3(late) => SilentT3(c, late);
    case Busy(busy) => SilentBusy(c, busy);
  }

  lemma SpendsAs(b: Conn, c: Conn, d: Conn)
    requires b.retry <= b.cfg.n2 && b.cfg == c.cfg && b.state == c.state && b.retry == c.retry && Spends(c, d, 1)
    ensures Spends(b, d, 1)
  {
  }

  lemma SilentT2(c: Conn, late: bool)
    requires c.retry <= c.cfg.n2
    ensures Spends(c, OnT2(c, late).conn, 0)
  {
    hide Ack, Spends;
    SpendsNothing(c, OnT2(c, late).conn);
  }

  lemma SilentT3(c: Conn, late: bool)
    requires c.retry <= c.cfg.n2
    ensures Spends(c, OnT3(c, late).conn, 0)
  {
    hide SFrame, Spends;
    SpendsNothing(c, OnT3(c, late).conn);
  }

  lemma SilentBusy(c: Conn, busy: bool)
    requires c.retry <= c.cfg.n2
    ensures Spends(c, SetBusy(c, busy).conn, 0)
  {
    hide SFrame, Spends;
    SpendsNothing(c, SetBusy(c, busy).conn);
  }

  lemma SpendsNothing(c: Conn, d: Conn)
    requires c.retry <= c.cfg.n2 && d.cfg == c.cfg
    requires (d.state == c.state && d.retry == c.retry)
             || (c.state == Connected && d.state == TimerRecovery && d.retry == 0)
    ensures Spends(c, d, 0)
  {
  }

  lemma SilentT1(c: Conn)
    requires c.retry <= c.cfg.n2
    ensures Spends(c, T1Expired(c).conn, 1)
  {
    hide PollPeer, Budget;
    if Live(c) {
      SilentPoll(if c.state == Connected then c.(state := TimerRecovery, retry := 0) else c);
      FreshBudget(c);
    } else { SilentWaiting(c); }
  }

  lemma FreshBudget(c: Conn)
    requires c.retry <= c.cfg.n2
    ensures c.state == Connected ==> Budget(c) == Budget(c.(state := TimerRecovery, retry := 0))
  {
  }

  lemma SilentWaiting(c: Conn)
    requires c.retry <= c.cfg.n2 && !Live(c)
    ensures Spends(c, T1Expired(c).conn, 1)
  {
    hide AskAgain, Leave, Spends;
    if c.state != Disconnected { Asked(c, if c.state == AwaitingConnection then SABM else DISC); }
    LeaveEnds(c, [Fail(if c.state == AwaitingConnection then ConnectTimeout else ReleaseTimeout, c.retry)]);
    SpendsOne(c, T1Expired(c).conn);
  }

  lemma Asked(c: Conn, k: UnnumKind)
    requires k == SABM || k == DISC
    ensures var d := AskAgain(c, k).conn; d.state == c.state && d.retry == c.retry + 1 && d.cfg == c.cfg
  {
    hide UFrame;
  }

  lemma SpendsOne(c: Conn, d: Conn)
    requires c.retry <= c.cfg.n2 && !Live(c) && d.cfg == c.cfg
    requires if c.state == Disconnected then d == c
             else if c.retry < c.cfg.n2 then d.state == c.state && d.retry == c.retry + 1
             else d.state == Disconnected && d.retry == 0
    ensures Spends(c, d, 1)
  {
  }

  lemma SilentPoll(c: Conn)
    requires c.retry <= c.cfg.n2 && c.state == TimerRecovery
    ensures Spends(c, PollPeer(c).conn, 1)
  {
    hide SFrame, UFrame, Leave;
    LeaveEnds(c, [Fail(LinkFailure, c.retry), UFrame(c, DM, true)]);
  }

  lemma LeaveEnds(c: Conn, first: seq<Action>)
    ensures var d := Leave(c, first).conn; d.state == Disconnected && d.retry == 0 && d.cfg == c.cfg
  {
    hide Clear;
  }

  lemma SendKeepsBudget(c: Conn, data: seq<byte>)
    ensures var d := SendData(c, data).conn; d.state == c.state && d.retry == c.retry && d.cfg == c.cfg
  {
    hide SendPending, CanQueue, Enqueue;
    SendPendingMute(Queued(c, data));
  }

  /** Silent-peer termination, exactly: after any silent run the session is over if and only if T1 has expired
      at least `Budget` times.  The AWAITING states and TIMER_RECOVERY have N2 - retry_count + 1, CONNECTED has N2 + 1
      whether or not T3 fires first. */
  lemma {:induction false} SilentPeerTermination(c: Conn, es: seq<SilentEvent>)
    requires c.retry <= c.cfg.n2
    ensures Run(c, es).0.state == Disconnected <==> T1Count(es) >= Budget(c)
    decreases |es|
  {
    hide Step;
    if es == [] {
      OverMeansDisconnected(c);
    } else {
      SilentStep(c, es[0]);
      SilentPeerTermination(Step(c, es[0]).conn, es[1..]);
    }
  }

  lemma OverMeansDisconnected(c: Conn)
    requires c.retry <= c.cfg.n2
    ensures Budget(c) == 0 <==> c.state == Disconnected
  {
  }

  /** Until then a watchdog is running: T1, or in CONNECTED T3, whose expiry starts T1. */
  lemma WatchdogArmed(c: Conn, late: bool)
    requires Inv(c) && c.state != Disconnected
    ensures c.t1 || (c.state == Connected && c.t3)
    ensures c.state == Connected ==> OnT3(c, late).conn.t1 && OnT3(c, late).conn.state == TimerRecovery
  {
    hide TxInv, InFlight, Backlog;
  }

  // ---- Connect attempts ---------------------------------------------------------------------------

  predicate IsSabm(a: Action) { a.Transmit? && PduOf(a.frame).Unnum? && PduOf(a.frame).ukind == SABM }

  function SabmCount(out: seq<Action>): nat {
    if out == [] then 0 else (if IsSabm(out[0]) then 1 else 0) + SabmCount(out[1..])
  }

  lemma SabmAppend(a: seq<Action>, b: seq<Action>)
    ensures SabmCount(a + b) == SabmCount(a) + SabmCount(b)
  {
    hide IsSabm;
    if a == [] { assert a + b == b; } else { assert (a + b)[1..] == a[1..] + b; SabmAppend(a[1..], b); }
  }

  function Min(a: nat, b: nat): nat { if a <= b then a else b }

  lemma NoSabm(out: seq<Action>)
    requires forall a :: a in out ==> !a.Transmit?
    ensures SabmCount(out) == 0
  {
    hide PduOf;
  }

  /** A waiting station repeats its SABM at each expiry of T1 while retries remain, and a disconnected one is quiet. */
  lemma WaitingStep(c: Conn, e: SilentEvent)
    requires c.retry <= c.cfg.n2 && (c.state == AwaitingConnection || c.state == Disconnected)
    ensures var o := Step(c, e);
            && (o.conn.state == AwaitingConnection || o.conn.state == Disconnected)
            && (c.state == Disconnected ==> o.conn.state == Disconnected)
            && SabmCount(o.out) == (if e.T1? && c.state == AwaitingConnection && c.retry < c.cfg.n2 then 1 else 0)
            && (o.conn.state == AwaitingConnection ==> o.conn.retry == c.retry + SabmCount(o.out))
            && (o.conn.state == Disconnected && c.state == AwaitingConnection ==> c.retry == c.cfg.n2)
  {
    hide T1Expired, SabmCount, IsSabm;
    if e.T1? && c.state == AwaitingConnection { WaitingT1(c.(t1 := c.t1 && e.late1)); }
    else { assert Step(c, e).out == [] by { WaitingQuiet(c, e); } WaitingQuiet(c, e); NoSabm([]); }
  }

  lemma WaitingQuiet(c: Conn, e: SilentEvent)
    requires c.state == Disconnected || (c.state == AwaitingConnection && !e.T1?)
    ensures var o := Step(c, e); o.out == [] && o.conn.state == c.state && o.conn.retry == c.retry
  {
  }

  lemma WaitingT1(c: Conn)
    requires c.retry <= c.cfg.n2 && c.state == AwaitingConnection
    ensures var o := T1Expired(c);
            if c.retry < c.cfg.n2 then SabmCount(o.out) == 1 && o.conn.state == AwaitingConnection
              && o.conn.retry == c.retry + 1
            else SabmCount(o.out) == 0 && o.conn.state == Disconnected
  {
    hide PduOf, UnnumControl, Clear, SabmCount;
    UFrameDecodes(c, SABM, true);
    if c.retry < c.cfg.n2 { OneSabm(UFrame(c, SABM, true)); } else { NoSabm(T1Expired(c).out); }
  }

  lemma OneSabm(a: Action)
    requires IsSabm(a)
    ensures SabmCount([a]) == 1
  {
    hide IsSabm;
  }

  lemma {:induction false} WaitingSabms(c: Conn, es: seq<SilentEvent>)
    requires c.retry <= c.cfg.n2 && (c.state == AwaitingConnection || c.state == Disconnected)
    ensures SabmCount(Run(c, es).1) == if c.state == Disconnected then 0 else Min(T1Count(es), c.cfg.n2 - c.retry)
    decreases |es|
  {
    hide Step, SabmCount;
    if es != [] {
      var o := Step(c, es[0]);
      WaitingStep(c, es[0]);
      SilentStep(c, es[0]);
      WaitingSabms(o.conn, es[1..]);
      SabmAppend(o.out, Run(o.conn, es[1..]).1);
    } else {
      NoSabm([]);
    }
  }

  /** A connect attempt nobody answers sends one SABM and one more per expiry of T1, 1 + N2 in all, and is then over. */
  lemma ConnectAttempt(c: Conn, remote: Address, digis: seq<Address>, es: seq<SilentEvent>)
    requires Inv(c) && c.state == Disconnected && |digis| <= MAX_DIGIPEATERS
    ensures var o := Connect(c, remote, digis);
            o.code == OK
            && SabmCount(o.out + Run(o.conn, es).1) == 1 + Min(T1Count(es), c.cfg.n2)
            && (Run(o.conn, es).0.state == Disconnected <==> T1Count(es) >= c.cfg.n2 + 1)
  {
    hide PduOf, UnnumControl, SabmCount, Run, Clear;
    var o := Connect(c, remote, digis);
    var d := Reset(SetPath(c.(peer := c.peer.(remote := remote, remoteSet := true)), digis));
    UFrameDecodes(d, SABM, true);
    OneSabm(UFrame(d, SABM, true));
    SabmAppend(o.out, Run(o.conn, es).1);
    WaitingSabms(o.conn, es);
    SilentPeerTermination(o.conn, es);
  }

  // ---- Hearing of the end ----------------------------------------------------------------------------

  /** Neither a FINAL nor a DISCONNECT. */
  predicate Mute(out: seq<Action>) { forall a :: a in out ==> !a.Final? && !a.Disconnect? }

  /** The step ends the session, and says so exactly once; or it does not, and says nothing.
      The one FINAL outside an ending is a refused call's. */
  ghost predicate TellsEnd(c: Conn, o: Outcome) {
    if c.state != Disconnected && o.conn.state == Disconnected then
      |o.out| >= 2 && o.out[|o.out| - 2..] == [Final, Disconnect] && Mute(o.out[..|o.out| - 2])
    else if c.state == Disconnected && o.conn.state == Disconnected && o.joined then
      |o.out| >= 1 && o.out[|o.out| - 1..] == [Final] && Mute(o.out[..|o.out| - 1])
    else
      Mute(o.out)
  }

  lemma LeaveTells(c: Conn, first: seq<Action>)
    requires c.state != Disconnected && Mute(first)
    ensures TellsEnd(c, Leave(c, first))
  {
    hide Clear;
    var out := first + [Final, Disconnect];
    assert out[|out| - 2..] == [Final, Disconnect] && out[..|out| - 2] == first;
  }

  lemma SendPendingMute(c: Conn)
    ensures Mute(SendPending(c).1)
    ensures var d := SendPending(c).0; d.state == c.state && d.retry == c.retry && d.cfg == c.cfg
  {
    hide IFrame, Unsent, MarkSent;
    var out := SendPending(c).1;
    forall a | a in out ensures a.Transmit? { var i :| 0 <= i < |out| && a == out[i]; }
  }

  lemma RestartedMute(d: Conn, again: bool)
    ensures Mute(Restarted(d, again).1) && Restarted(d, again).0.state == d.state
  {
    hide SendPending;
    SendPendingMute(if d.state == Connected then d.(t3 := false) else d);
  }

  lemma HandleNrState(c: Conn, nr: Seq8)
    ensures HandleNr(c, nr).state == c.state
  {
    hide Retire;
  }

  lemma InfoTells(c: Conn, ns: Seq8, nr: Seq8, pf: bool, payload: seq<byte>)
    requires Live(c) && IsValidNr(c.tx, nr)
    ensures TellsEnd(c, if c.state == Connected then ConnectedInfo(c, ns, nr, pf, payload)
            else RecoveryInfo(c, ns, nr, pf, payload))
  {
    hide HandleNr, SendPending, ConnSpec.Receive, IsValidNr;
    HandleNrState(c, nr);
    var c1 := HandleNr(c, nr).(peerBusy := false);
    ReceiveMute(c1, ns, pf, payload);
    var d := ConnSpec.Receive(c1, ns, pf, payload).0;
    SendPendingMute(if ns == c.vr then d.(t3 := true) else d);
  }

  lemma ReceiveMute(c: Conn, ns: Seq8, pf: bool, payload: seq<byte>)
    ensures var r := ConnSpec.Receive(c, ns, pf, payload); Mute(r.1) && r.0.state == c.state
  {
    hide Ack, SFrame;
  }

  lemma ConnectedSupTells(c: Conn, k: SupKind, nr: Seq8, pf: bool, command: bool)
    requires c.state == Connected && IsValidNr(c.tx, nr)
    ensures TellsEnd(c, ConnectedSup(c, k, nr, pf, command))
  {
    hide HandleNr, Resumed, Ack, MarkUnsent, IsValidNr;
    HandleNrState(c, nr);
    var c1 := HandleNr(c, nr);
    ResumedMute(c1, c1.tx, pf, command);
    ResumedMute(c1, MarkUnsent(c1.tx, nr), pf, command);
  }

  lemma ResumedMute(c: Conn, w: Tx, pf: bool, command: bool)
    ensures var o := Resumed(c, w, pf, command); Mute(o.out) && o.conn.state == c.state && !o.joined
  {
    hide SendPending, Ack;
    SendPendingMute(c.(peerBusy := false, tx := w));
  }

  lemma RecoverySupTells(c: Conn, k: SupKind, nr: Seq8, pf: bool, command: bool)
    requires c.state == TimerRecovery && IsValidNr(c.tx, nr)
    ensures TellsEnd(c, RecoverySup(c, k, nr, pf, command))
  {
    hide Prepared, Restarted, Ack, IsValidNr;
    var final := pf && !command;
    var d := Prepared(c, k, nr, final);
    PreparedState(c, k, nr, final);
    RestartedMute(d, d.tx.va != d.tx.vs && (final || k.REJ?));
  }

  lemma PreparedState(c: Conn, k: SupKind, nr: Seq8, final: bool)
    requires c.state == TimerRecovery
    ensures Live(Prepared(c, k, nr, final))
  {
    hide HandleNr, MarkUnsent;
    HandleNrState(c, nr);
  }

  lemma LiveTells(c: Conn, f: Frame)
    requires Live(c)
    ensures TellsEnd(c, HandleLive(c, f))
  {
    hide PduOf, TellsEnd, ConnectedSup, RecoverySup, ConnectedInfo, RecoveryInfo, IsValidNr, UnnumControl,
        NrErrorRecovery, LiveUnnum;
    match PduOf(f)
    case Unnum(k, pf) => UnnumTells(c, f, k, pf);
    case Sup(k, nr, pf, command) => if !IsValidNr(c.tx, nr) { NrErrorTells(c); InvalidSup(c, k, nr, pf, command); }
      else if c.state == Connected { ConnectedSupTells(c, k, nr, pf, command); } else {
        RecoverySupTells(c, k, nr, pf, command);
      }
    case Info(ns, nr, pf, payload) =>
      if IsValidNr(c.tx, nr) {
        InfoTells(c, ns, nr, pf, payload);
      } else {
        NrErrorTells(c);
        InvalidInfo(c, ns, nr, pf, payload);
      }
    case NoPdu => QuietTells(c);
  }

  lemma InvalidSup(c: Conn, k: SupKind, nr: Seq8, pf: bool, command: bool)
    requires !IsValidNr(c.tx, nr)
    ensures ConnectedSup(c, k, nr, pf, command) == NrErrorRecovery(c) == RecoverySup(c, k, nr, pf, command)
  {
  }

  lemma InvalidInfo(c: Conn, ns: Seq8, nr: Seq8, pf: bool, payload: seq<byte>)
    requires !IsValidNr(c.tx, nr)
    ensures ConnectedInfo(c, ns, nr, pf, payload) == NrErrorRecovery(c) == RecoveryInfo(c, ns, nr, pf, payload)
  {
  }

  lemma QuietTells(c: Conn)
    ensures TellsEnd(c, Quiet(c))
  {
  }

  lemma NrErrorTells(c: Conn)
    requires Live(c)
    ensures TellsEnd(c, NrErrorRecovery(c))
  {
    hide Clear, UFrame;
  }

  lemma UnnumTells(c: Conn, f: Frame, k: UnnumKind, pf: bool)
    requires Live(c)
    ensures TellsEnd(c, LiveUnnum(c, f, k, pf))
  {
    hide Leave, UFrame, Clear, SetPath;
    match k
    case DISC => LeaveTells(c, [UFrame(c, UA, pf)]);
    case DM => LeaveTells(c, [Fail(DmReceived, c.retry)]);
    case _ =>
  }

  lemma WaitingTells(c: Conn, f: Frame)
    requires c.state == AwaitingConnection || c.state == AwaitingRelease
    ensures TellsEnd(c, Dispatch(c, f, false))
  {
    hide Leave, UFrame, Clear, SetPath, PduOf;
    var p := PduOf(f);
    if p.Unnum? {
      LeaveTells(c, []);
      LeaveTells(c, [UFrame(c, UA, p.upf)]);
      LeaveTells(c, [Fail(Refused, c.retry)]);
    }
  }

  lemma IdleTells(c: Conn, f: Frame, refuse: bool)
    requires c.state == Disconnected
    ensures TellsEnd(c, HandleDisconnected(c, f, refuse))
  {
    hide UFrame, SetPath, PduOf, Reset, TellsEnd, UnnumControl;
    var p := PduOf(f);
    QuietTells(c);
    if p.Unnum? && p.ukind == SABM {
      var c1 := SetPath(c.(peer := c.peer.(remote := f.source, remoteSet := true)), f.digipeaters);
      if refuse {
        RefusedTells(c1, UFrame(c1, DM, p.upf));
      } else {
        AcceptedTells(c, Reset(c1).(state := Connected, t3 := true), UFrame(Reset(c1), UA, p.upf));
      }
      IdleAs(c, c1, HandleDisconnected(c, f, refuse));
    } else if p.Unnum? && p.ukind == DISC { OneTells(c, c, UFrame(c, DM, p.upf)); }
  }

  lemma IdleAs(c: Conn, d: Conn, o: Outcome)
    requires c.state == d.state
    ensures TellsEnd(c, o) <==> TellsEnd(d, o)
  {
  }

  lemma RefusedTells(c: Conn, a: Action)
    requires c.state == Disconnected && a.Transmit?
    ensures TellsEnd(c, Leave(c, [a]).(joined := true))
  {
    hide Clear;
    var out := [a] + [Final];
    assert out[|out| - 1..] == [Final] && out[..|out| - 1] == [a];
  }

  lemma AcceptedTells(c: Conn, d: Conn, a: Action)
    requires c.state == Disconnected && d.state == Connected && a.Transmit?
    ensures TellsEnd(c, Outcome(d, [a], OK, true))
  {
  }

  lemma T1Tells(c: Conn)
    ensures TellsEnd(c, T1Expired(c))
  {
    hide Leave, UFrame, SFrame, PollPeer, TellsEnd;
    LeaveTellsAll(c);
    if Live(c) {
      PollTells(if c.state == Connected then c.(state := TimerRecovery, retry := 0) else c);
      SameEnd(c, c.(state := TimerRecovery, retry := 0), T1Expired(c));
    }
    if c.state == Disconnected { QuietTells(c); }
    if c.state == AwaitingConnection || c.state == AwaitingRelease {
      OneTells(c, c.(retry := c.retry + 1, t1 := true),
          UFrame(c, if c.state == AwaitingConnection then SABM else DISC, true));
    }
  }

  lemma OneTells(c: Conn, d: Conn, a: Action)
    requires a.Transmit? && (c.state == Disconnected) == (d.state == Disconnected)
    ensures TellsEnd(c, Outcome(d, [a], OK, false))
  {
  }

  lemma LeaveTellsAll(c: Conn)
    ensures c.state != Disconnected ==>
            TellsEnd(c, Leave(c, [Fail(ConnectTimeout, c.retry)]))
            && TellsEnd(c, Leave(c, [Fail(ReleaseTimeout, c.retry)]))
  {
    hide Leave, TellsEnd;
    if c.state != Disconnected {
      LeaveTells(c, [Fail(ConnectTimeout, c.retry)]);
      LeaveTells(c, [Fail(ReleaseTimeout, c.retry)]);
    }
  }

  lemma PollTells(c: Conn)
    requires c.state == TimerRecovery
    ensures TellsEnd(c, PollPeer(c))
  {
    hide Leave, UFrame, SFrame, TellsEnd;
    LeaveTells(c, [Fail(LinkFailure, c.retry), UFrame(c, DM, true)]);
    OneTells(c, c.(retry := c.retry + 1, t1 := true), SFrame(c, RR, true, true));
  }

  lemma SameEnd(c: Conn, d: Conn, o: Outcome)
    requires c.state != Disconnected && d.state != Disconnected
    ensures TellsEnd(c, o) <==> TellsEnd(d, o)
  {
  }

  lemma CallTells(c: Conn, e: Event)
    requires e.T2? || e.T3? || e.Dial? || e.Hangup? || e.Busy?
    ensures TellsEnd(c, Step(c, e))
  {
    hide TellsEnd, OnT2, OnT3, Connect, Shutdown, SetBusy;
    match e
    case T2(late) => T2Tells(c, late);
    case T3(late) => T3Tells(c, late);
    case Dial(remote, digis) => DialTells(c, remote, digis);
    case Hangup => HangupTells(c);
    case Busy(busy) => BusyTells(c, busy);
    case _ =>
  }

  lemma T2Tells(c: Conn, late: bool)
    ensures TellsEnd(c, OnT2(c, late))
  {
    hide Ack;
  }

  lemma T3Tells(c: Conn, late: bool)
    ensures TellsEnd(c, OnT3(c, late))
  {
    hide SFrame;
  }

  lemma DialTells(c: Conn, remote: Address, digis: seq<Address>)
    ensures TellsEnd(c, Connect(c, remote, digis))
  {
    hide UFrame, Reset, SetPath;
  }

  lemma HangupTells(c: Conn)
    ensures TellsEnd(c, Shutdown(c))
  {
    hide UFrame;
  }

  lemma BusyTells(c: Conn, busy: bool)
    ensures TellsEnd(c, SetBusy(c, busy))
  {
    hide SFrame;
  }

  lemma SameEndT1(c: Conn, late: bool)
    ensures TellsEnd(c.(t1 := c.t1 && late), OnT1(c, late)) <==> TellsEnd(c, OnT1(c, late))
  {
    hide T1Expired;
  }

  /** Each return to DISCONNECTED from another state records exactly one FINAL followed by exactly one DISCONNECT,
      last. */
  lemma StepTellsEnd(c: Conn, e: Event)
    ensures TellsEnd(c, Step(c, e))
  {
    hide T1Expired, OnT2, OnT3, HandleLive, HandleDisconnected, HandleAwaitingConnection, HandleAwaitingRelease,
        SendData, SetBusy, Shutdown, Connect, Accepts, TellsEnd;
    match e
    case Arrive(f, refuse) =>
      QuietTells(c);
      if c.state == Disconnected { IdleTells(c, f, refuse); }
      else if Live(c) { LiveTells(c, f); }
      else { WaitingTells(c, f); }
    case T1(late) => T1Tells(c.(t1 := c.t1 && late)); SameEndT1(c, late);
    case Send(data) => SendTells(c, data);
    case _ => CallTells(c, e);
  }

  lemma SendTells(c: Conn, data: seq<byte>)
    ensures TellsEnd(c, SendData(c, data))
  {
    hide Enqueue, SendPending, CanQueue;
    SendPendingMute(Queued(c, data));
  }
}

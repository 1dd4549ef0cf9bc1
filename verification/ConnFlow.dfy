/** Flow control: the flags and timers of an open session after every step, and what follows over runs and between two
    stations.  A peer that is busy is sent nothing until it says otherwise, and a station that is busy takes nothing. */
module ConnFlow {
  import opened Ax25Types
  import opened TxWindow
  import opened ConnSpec
  import opened ConnInvariants
  import opened ConnEffects
  import opened ConnSpeech
  import opened ConnAnswers
  import opened ConnTable

  // ---- I frames among the actions ---------------------------------------------------------------------------------

  ghost predicate SendsInfo(out: seq<Action>) { exists a :: a in out && a.Transmit? && PduOf(a.frame).Info? }

  lemma InfoAppend(a: seq<Action>, b: seq<Action>)
    ensures SendsInfo(a + b) <==> SendsInfo(a) || SendsInfo(b)
  {
    hide PduOf;
    if x :| x in a && x.Transmit? && PduOf(x.frame).Info? { assert x in a + b; }
    if x :| x in b && x.Transmit? && PduOf(x.frame).Info? { assert x in a + b; }
  }

  lemma PendingInfos(c: Conn)
    ensures SendsInfo(SendPending(c).1) <==> SendPending(c).1 != []
  {
    hide PduOf, IFrame, Unsent, MarkSent;
    var out := SendPending(c).1;
    if out != [] {
      var s := Sent(c)[0];
      IsInfo(c, s, c.tx.queue[s].data);
      assert out[0] == IFrame(c, s, c.tx.queue[s].data) && out[0] in out;
    }
  }

  lemma NoInfoS(c: Conn, k: SupKind, pf: bool, command: bool)
    requires !k.OtherS?
    ensures !SendsInfo([SFrame(c, k, pf, command)])
  {
    hide SFrame, PduOf;
    SFrameDecodes(c, k, pf, command);
  }

  lemma NoInfoAck(c: Conn, pf: bool)
    ensures !SendsInfo([Ack(c, pf, false)])
  {
    hide SFrame, SendsInfo;
    NoInfoS(c, if c.localBusy then RNR else RR, pf, false);
  }

  // ---- The flags and timers of an open session --------------------------------------------------------------------

  datatype Flags = Flags(peerBusy: bool, localBusy: bool, rejSent: bool, ackPending: bool, t1: bool, t2: bool, t3: bool)

  function FlagsOf(c: Conn): Flags { Flags(c.peerBusy, c.localBusy, c.rejSent, c.ackPending, c.t1, c.t2, c.t3) }

  /** An I frame that is sent carries the acknowledgement, and T1 takes over from T3. */
  function Sending(f: Flags, sent: bool): Flags {
    if sent then f.(ackPending := false, t1 := true, t3 := false) else f
  }

  /** T1 and T3 after an acknowledgement up to N(R) in CONNECTED. */
  function AckedTimers(c: Conn, nr: Seq8, f: Flags): Flags {
    if c.state != Connected then f
    else if nr == c.tx.vs then f.(t1 := false, t3 := true)
    else if nr != c.tx.va then f.(t1 := true, t3 := false)
    else f
  }

  /** What a kind of S frame says of the peer. */
  function SaidBusy(s: SupKind, before: bool): bool {
    match s case RR => false case REJ => false case RNR => true case OtherS => before
  }

  /** The answer to a poll leaves T1 running exactly while something is outstanding. */
  function SupFlags(c: Conn, s: SupKind, nr: Seq8, final: bool, f: Flags): Flags {
    var g := AckedTimers(c, nr, f).(peerBusy := SaidBusy(s, f.peerBusy));
    if c.state == TimerRecovery && final then
      if nr == c.tx.vs then g.(t1 := false, t3 := true) else g.(t1 := true, t3 := false)
    else g
  }

  /** An I frame shows a ready peer; one in sequence closes the gap unless this station is busy, owes an acknowledgement
      unless it is answered at once, and in CONNECTED restarts T3. */
  function InfoFlags(c: Conn, ns: Seq8, nr: Seq8, pf: bool, f: Flags): Flags {
    var g := AckedTimers(c, nr, f).(peerBusy := false);
    if ns != c.vr then g.(rejSent := true)
    else
      g.(rejSent := c.localBusy && f.rejSent, ackPending := f.ackPending || !pf, t2 := f.t2 || !pf,
      t3 := g.t3 || c.state == Connected)
  }

  /** The flags after a step that keeps a session open; `sent` says whether it sent I frames. */
  function NextFlags(c: Conn, e: Event, sent: bool): Flags {
    var f := FlagsOf(c);
    match e
    case Arrive(frame, _) =>
      if !Accepts(c, frame) then f
      else
        (match PduOf(frame)
         case Sup(s, nr, pf, command) => Sending(SupFlags(c, s, nr, pf && !command, f), sent)
         case Info(ns, nr, pf, _) => Sending(InfoFlags(c, ns, nr, pf, f), sent)
         case _ => f)
    case T1(_) => f.(t1 := true)
    case T2(late) => f.(t2 := c.t2 && late, ackPending := false)
    case T3(late) => f.(t3 := c.t3 && late, t1 := c.t1 || c.state == Connected)
    case Busy(busy) =>
      if busy && !c.localBusy then f.(localBusy := true, ackPending := false, t2 := false) else f.(localBusy := busy)
    case Send(_) => Sending(f, sent)
    case _ => f
  }

  lemma SendPendingFlags(c: Conn)
    ensures var (d, out) := SendPending(c); FlagsOf(d) == Sending(FlagsOf(c), SendsInfo(out))
  {
    hide IFrame, Unsent, MarkSent, SendsInfo;
    PendingInfos(c);
  }

  lemma FlagFields(c: Conn)
    ensures var f := FlagsOf(c);
            && f.peerBusy == c.peerBusy && f.localBusy == c.localBusy && f.rejSent == c.rejSent
            && f.ackPending == c.ackPending && f.t1 == c.t1 && f.t2 == c.t2 && f.t3 == c.t3
  {
  }

  lemma HandleNrFlags(c: Conn, nr: Seq8)
    requires IsValidNr(c.tx, nr)
    ensures FlagsOf(HandleNr(c, nr)) == AckedTimers(c, nr, FlagsOf(c))
    ensures HandleNr(c, nr).tx.va == nr && HandleNr(c, nr).tx.vs == c.tx.vs && HandleNr(c, nr).state == c.state
  {
    hide IsValidNr, HandleNr;
    HandleNrVoice(c, nr);
    HandleNrTimers(c, nr);
  }

  lemma HandleNrTimers(c: Conn, nr: Seq8)
    requires IsValidNr(c.tx, nr)
    ensures var d, g := HandleNr(c, nr), AckedTimers(c, nr, FlagsOf(c)); d.t1 == g.t1 && d.t3 == g.t3
    ensures HandleNr(c, nr).tx.va == nr && HandleNr(c, nr).tx.vs == c.tx.vs
  {
    hide IsValidNr, Retire, FlagsOf;
    FlagFields(c);
    RetireEnds(c.tx, nr);
    var c1 := c.(tx := Retire(c.tx, nr));
    if c.state != Connected {
      assert HandleNr(c, nr) == c1;
    } else if nr == c.tx.vs {
      assert HandleNr(c, nr) == c1.(t1 := false, t3 := true);
    } else if nr != c.tx.va {
      assert HandleNr(c, nr) == c1.(t1 := true, t3 := false);
    } else {
      assert HandleNr(c, nr) == c1;
    }
  }

  lemma PolledInfos(c: Conn, pf: bool, command: bool)
    ensures !SendsInfo(AckIfPolled(c, pf, command))
  {
    hide Ack;
    NoInfoAck(c, true);
  }

  lemma ResumedFlags(c: Conn, w: Tx, pf: bool, command: bool)
    ensures var o := Resumed(c, w, pf, command);
            FlagsOf(o.conn) == Sending(FlagsOf(c).(peerBusy := false), SendsInfo(o.out))
  {
    hide SendPending, AckIfPolled, SendsInfo, Sending;
    var c1 := c.(peerBusy := false);
    SendPendingFlags(c1.(tx := w));
    PolledInfos(c1, pf, command);
    InfoAppend(AckIfPolled(c1, pf, command), SendPending(c1.(tx := w)).1);
  }

  lemma SupervisedFlags(c: Conn, s: SupKind, nr: Seq8, pf: bool, command: bool)
    ensures var o := Supervised(c, s, nr, pf, command);
            FlagsOf(o.conn) == Sending(FlagsOf(c).(peerBusy := SaidBusy(s, c.peerBusy)), SendsInfo(o.out))
  {
    hide Resumed, AckIfPolled, MarkUnsent, SendsInfo;
    ResumedFlags(c, c.tx, pf, command);
    ResumedFlags(c, MarkUnsent(c.tx, nr), pf, command);
    PolledInfos(c.(peerBusy := true), pf, command);
    NoInfos();
  }

  lemma NoInfos()
    ensures !SendsInfo([])
  {
  }

  lemma PreparedFlags(c: Conn, s: SupKind, nr: Seq8, final: bool)
    requires IsValidNr(c.tx, nr) && c.state == TimerRecovery
    ensures var d := Prepared(c, s, nr, final);
            && FlagsOf(d) == FlagsOf(c).(peerBusy := SaidBusy(s, c.peerBusy), t1 := c.t1 && !final)
            && d.tx.va == nr && d.tx.vs == c.tx.vs && d.state == if final then Connected else TimerRecovery
  {
    hide IsValidNr, HandleNr, MarkUnsent, Noted;
    HandleNrFlags(c, nr);
    HandleNrVoice(c, nr);
    var c1 := HandleNr(c, nr);
    MarkUnsentEnds(c1.tx, c1.tx.va);
    var c2 := if final then Recovered(c1) else c1;
    NotedFlags(c2, s, nr);
  }

  lemma MarkUnsentEnds(w: Tx, a: Seq8)
    ensures MarkUnsent(w, a).va == w.va && MarkUnsent(w, a).vs == w.vs
  {
  }

  lemma NotedFlags(c: Conn, s: SupKind, nr: Seq8)
    ensures var d := Noted(c, s, nr);
            && FlagsOf(d) == FlagsOf(c).(peerBusy := SaidBusy(s, c.peerBusy))
            && d.tx.va == c.tx.va && d.tx.vs == c.tx.vs && d.state == c.state
  {
    hide MarkUnsent;
    MarkUnsentEnds(c.tx, nr);
  }

  lemma RestartedFlags(d: Conn, again: bool)
    ensures var (e, out) := Restarted(d, again);
            var sent := SendsInfo(out);
            if d.state != Connected then FlagsOf(e) == Sending(FlagsOf(d), sent)
            else if d.tx.va == d.tx.vs then FlagsOf(e) == FlagsOf(d).(t1 := false, t3 := true) && !sent
            else FlagsOf(e) == Sending(FlagsOf(d), sent).(t1 := true, t3 := false)
  {
    hide SendPending, SendsInfo;
    SendPendingFlags(d);
    SendPendingFlags(d.(t3 := false));
    NoInfos();
  }

  lemma RecoverySupFlags(c: Conn, s: SupKind, nr: Seq8, pf: bool, command: bool)
    requires IsValidNr(c.tx, nr) && c.state == TimerRecovery
    ensures var o := RecoverySup(c, s, nr, pf, command);
            FlagsOf(o.conn) == Sending(SupFlags(c, s, nr, pf && !command, FlagsOf(c)), SendsInfo(o.out))
  {
    hide IsValidNr, Prepared, Restarted, AckIfPolled, SendsInfo, FlagsOf, SupFlags, Sending;
    var final := pf && !command;
    var d := Prepared(c, s, nr, final);
    var again := d.tx.va != d.tx.vs && (final || s.REJ?);
    var (e, out) := Restarted(d, again);
    PreparedFlags(c, s, nr, final);
    RestartedFlags(d, again);
    PolledInfos(d, pf, command);
    NoInfos();
    InfoAppend(if s.OtherS? then [] else AckIfPolled(d, pf, command), out);
    FlagFields(c);
    AnswerFlags(c, s, nr, final, FlagsOf(e), SendsInfo(out));
  }

  /** The two halves of the section in TIMER_RECOVERY, put together. */
  lemma AnswerFlags(c: Conn, s: SupKind, nr: Seq8, final: bool, g: Flags, sent: bool)
    requires c.state == TimerRecovery
    requires var f := FlagsOf(c).(peerBusy := SaidBusy(s, c.peerBusy), t1 := c.t1 && !final);
             if !final then g == Sending(f, sent)
             else if nr == c.tx.vs then g == f.(t1 := false, t3 := true) && !sent
             else g == Sending(f, sent).(t1 := true, t3 := false)
    ensures g == Sending(SupFlags(c, s, nr, final, FlagsOf(c)), sent)
  {
  }

  lemma ReceiveFlags(c: Conn, ns: Seq8, pf: bool, payload: seq<byte>)
    ensures var (d, out) := Receive(c, ns, pf, payload);
            && !SendsInfo(out)
            && FlagsOf(d) == if ns != c.vr then FlagsOf(c).(rejSent := true)
               else FlagsOf(c).(rejSent := c.localBusy && c.rejSent, ackPending := c.ackPending || !pf,
                    t2 := c.t2 || !pf)
  {
    hide Ack, SFrame, PduOf;
    NoInfoAck(c, true);
    NoInfoAck(c.(vr := Next(c.vr), rejSent := false), true);
    NoInfoS(c, REJ, pf, false);
  }

  lemma InfoFlagsLaw(c: Conn, ns: Seq8, nr: Seq8, pf: bool, payload: seq<byte>)
    requires Live(c) && IsValidNr(c.tx, nr)
    ensures var o := if c.state == Connected then ConnectedInfo(c, ns, nr, pf, payload)
            else RecoveryInfo(c, ns, nr, pf, payload);
            FlagsOf(o.conn) == Sending(InfoFlags(c, ns, nr, pf, FlagsOf(c)), SendsInfo(o.out))
  {
    hide IsValidNr, HandleNr, Receive, SendPending, SendsInfo, Sending, InfoFlags, FlagsOf;
    HandleNrVoice(c, nr);
    var c1 := HandleNr(c, nr).(peerBusy := false);
    var (d, out) := Receive(c1, ns, pf, payload);
    ReceivedFlags(c, ns, nr, pf, payload);
    NothingSent(FlagsOf(d));
    if c.state == Connected {
      var e := if ns == c.vr then d.(t3 := true) else d;
      SendPendingFlags(e);
      InfoAppend(out, SendPending(e).1);
    }
  }

  /** The receive side of the section, before anything is sent from the window. */
  lemma ReceivedFlags(c: Conn, ns: Seq8, nr: Seq8, pf: bool, payload: seq<byte>)
    requires Live(c) && IsValidNr(c.tx, nr)
    ensures var (d, out) := Receive(HandleNr(c, nr).(peerBusy := false), ns, pf, payload);
            && !SendsInfo(out)
            && FlagsOf(if c.state == Connected && ns == c.vr then d.(t3 := true) else d)
               == InfoFlags(c, ns, nr, pf, FlagsOf(c))
  {
    hide IsValidNr, HandleNr, Receive, SendsInfo, AckedTimers;
    HandleNrFlags(c, nr);
    HandleNrVoice(c, nr);
    ReceiveFlags(HandleNr(c, nr).(peerBusy := false), ns, pf, payload);
  }

  lemma NothingSent(f: Flags)
    ensures Sending(f, false) == f
  {
  }

  lemma LiveFlags(c: Conn, f: Frame)
    requires Live(c) && Live(HandleLive(c, f).conn) && !IsCall(f)
    ensures var o := HandleLive(c, f);
            FlagsOf(o.conn) ==
            match PduOf(f)
            case Sup(s, nr, pf, command) => Sending(SupFlags(c, s, nr, pf && !command, FlagsOf(c)), SendsInfo(o.out))
            case Info(ns, nr, pf, _) => Sending(InfoFlags(c, ns, nr, pf, FlagsOf(c)), SendsInfo(o.out))
            case _ => FlagsOf(c)
  {
    hide PduOf, SendsInfo, Supervised, RecoverySup, ConnectedInfo, RecoveryInfo, HandleNr, NrErrorRecovery, IsValidNr,
        SupFlags, InfoFlags, Sending, LiveUnnum;
    RedialGoes(c);
    match PduOf(f)
    case Sup(s, nr, pf, command) =>
      if !IsValidNr(c.tx, nr) { Refuses(c, s, nr, pf, command, 0, []); }
      else if c.state == TimerRecovery { RecoverySupFlags(c, s, nr, pf, command); }
      else { ConnectedSupFlags(c, s, nr, pf, command); }
    case Info(ns, nr, pf, payload) =>
      if IsValidNr(c.tx, nr) { InfoFlagsLaw(c, ns, nr, pf, payload); }
      else { Refuses(c, RR, nr, pf, false, ns, payload); }
    case Unnum(k, pf) => UnnumFlags(c, f, k, pf);
    case NoPdu =>
  }

  lemma ConnectedSupFlags(c: Conn, s: SupKind, nr: Seq8, pf: bool, command: bool)
    requires c.state == Connected && IsValidNr(c.tx, nr)
    ensures var o := ConnectedSup(c, s, nr, pf, command);
            FlagsOf(o.conn) == Sending(SupFlags(c, s, nr, pf && !command, FlagsOf(c)), SendsInfo(o.out))
  {
    hide IsValidNr, HandleNr, Supervised, SendsInfo;
    HandleNrFlags(c, nr);
    HandleNrVoice(c, nr);
    SupervisedFlags(HandleNr(c, nr), s, nr, pf, command);
  }

  /** A U frame other than SABM leaves an open session alone or ends it. */
  lemma UnnumFlags(c: Conn, f: Frame, k: UnnumKind, pf: bool)
    requires Live(c) && k != SABM && Live(LiveUnnum(c, f, k, pf).conn)
    ensures LiveUnnum(c, f, k, pf) == Quiet(c)
  {
    hide UFrame, Clear;
  }

  lemma T1Flags(c: Conn, late: bool)
    requires Live(c) && Live(OnT1(c, late).conn)
    ensures FlagsOf(OnT1(c, late).conn) == FlagsOf(c).(t1 := true)
  {
    hide T1Expired, PollPeer;
    var b := c.(t1 := c.t1 && late);
    T1FromLive(b);
    PollFlags(if c.state == Connected then b.(state := TimerRecovery, retry := 0) else b);
  }

  lemma PollFlags(c: Conn)
    requires Live(PollPeer(c).conn)
    ensures FlagsOf(PollPeer(c).conn) == FlagsOf(c).(t1 := true)
  {
    hide SFrame, UFrame, Clear;
  }

  lemma T2Flags(c: Conn, late: bool)
    requires Live(c)
    ensures FlagsOf(OnT2(c, late).conn) == FlagsOf(c).(t2 := c.t2 && late, ackPending := false)
  {
    hide Ack;
  }

  lemma T3Flags(c: Conn, late: bool)
    requires Live(c)
    ensures FlagsOf(OnT3(c, late).conn) == FlagsOf(c).(t3 := c.t3 && late, t1 := c.t1 || c.state == Connected)
  {
    hide SFrame;
  }

  lemma BusyFlags(c: Conn, busy: bool)
    requires Live(c)
    ensures FlagsOf(SetBusy(c, busy).conn) == NextFlags(c, Busy(busy), false)
  {
    hide SFrame;
  }

  lemma SendFlags(c: Conn, data: seq<byte>)
    ensures FlagsOf(SendData(c, data).conn) == Sending(FlagsOf(c), SendsInfo(SendData(c, data).out))
  {
    hide SendPending, Enqueue, CanQueue, SendsInfo;
    NoInfos();
    SendPendingFlags(Queued(c, data));
  }

  /** The flags and timers after every step that keeps an open session open. */
  lemma StepFlags(c: Conn, e: Event)
    requires Live(c) && Live(Step(c, e).conn) && !HearsU(c, e, SABM)
    ensures FlagsOf(Step(c, e).conn) == NextFlags(c, e, SendsInfo(Step(c, e).out))
  {
    hide OnT1, OnT2, OnT3, SendData, SetBusy, Shutdown, HandleLive, Accepts, PduOf, SendsInfo, FlagsOf, SupFlags,
        InfoFlags, Sending;
    match e
    case Arrive(f, refuse) => if Accepts(c, f) { LiveFlags(c, f); }
    case T1(late) => T1Flags(c, late);
    case Send(data) => SendFlags(c, data);
    case Hangup => HangupGoes(c);
    case Dial(_, _) =>
    case T2(late) => T2Flags(c, late);
    case T3(late) => T3Flags(c, late);
    case Busy(busy) => BusyFlags(c, busy);
  }

  lemma HangupGoes(c: Conn)
    requires Live(c)
    ensures !Live(Shutdown(c).conn)
  {
    hide UFrame;
  }
}

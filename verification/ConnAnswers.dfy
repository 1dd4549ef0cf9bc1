/** Which frames a step sends: for every state and event, exactly how many of each kind, read off the frame that arrives
    and the state before. */
module ConnAnswers {
  import opened Ax25Types
  import opened TxWindow
  import opened ConnSpec
  import opened ConnEffects
  import opened ConnSpeech

  // ---- Counting frames ---------------------------------------------------------------------------------------------

  /** Frames by kind: S responses with the F bit, REJ frames, RR and RNR responses without the F bit, S commands, and
      the four U frames a station sends. */
  datatype Kind = Finals | Rejects | Acks | Polls | Sabms | Discs | Uas | Dms

  predicate IsKind(p: Pdu, k: Kind) {
    match k
    case Finals => p.Sup? && !p.command && p.spf
    case Rejects => p.Sup? && p.skind == REJ
    case Acks => p.Sup? && !p.command && !p.spf && p.skind != REJ
    case Polls => p.Sup? && p.command
    case Sabms => p.Unnum? && p.ukind == SABM
    case Discs => p.Unnum? && p.ukind == DISC
    case Uas => p.Unnum? && p.ukind == UA
    case Dms => p.Unnum? && p.ukind == DM
  }

  function Bit(b: bool): nat { if b then 1 else 0 }

  function One(a: Action, k: Kind): nat { Bit(a.Transmit? && IsKind(PduOf(a.frame), k)) }

  function Count(out: seq<Action>, k: Kind): nat { if out == [] then 0 else One(out[0], k) + Count(out[1..], k) }

  lemma {:induction false} CountAppend(a: seq<Action>, b: seq<Action>, k: Kind)
    ensures Count(a + b, k) == Count(a, k) + Count(b, k)
  {
    hide One;
    if a == [] { assert a + b == b; } else { assert (a + b)[1..] == a[1..] + b; CountAppend(a[1..], b, k); }
  }

  lemma CountOne(a: Action, k: Kind)
    ensures Count([a], k) == One(a, k)
  {
    hide One;
    assert [a][1..] == [];
  }

  lemma {:induction false} CountNone(out: seq<Action>, k: Kind)
    requires forall a :: a in out ==> One(a, k) == 0
    ensures Count(out, k) == 0
  {
    hide One;
    if out != [] { assert out[0] in out; CountNone(out[1..], k); }
  }

  // ---- The frames that are built ----------------------------------------------------------------------------------

  lemma UCounts(c: Conn, u: UnnumKind, pf: bool, k: Kind)
    requires !u.OtherU? && !u.FRMR?
    ensures Count([UFrame(c, u, pf)], k) == Bit(IsKind(Unnum(u, pf), k))
  {
    hide UFrame, PduOf;
    UFrameDecodes(c, u, pf);
    CountOne(UFrame(c, u, pf), k);
  }

  lemma SCounts(c: Conn, s: SupKind, pf: bool, command: bool, k: Kind)
    requires !s.OtherS?
    ensures Count([SFrame(c, s, pf, command)], k) == Bit(IsKind(Sup(s, c.vr, pf, command), k))
  {
    hide SFrame, PduOf;
    SFrameDecodes(c, s, pf, command);
    CountOne(SFrame(c, s, pf, command), k);
  }

  lemma AckCounts(c: Conn, pf: bool, k: Kind)
    ensures Count([Ack(c, pf, false)], k) == Bit(k == if pf then Finals else Acks)
  {
    hide SFrame, Count;
    SCounts(c, if c.localBusy then RNR else RR, pf, false, k);
  }

  lemma IsInfo(c: Conn, ns: Seq8, data: seq<byte>)
    ensures PduOf(IFrame(c, ns, data).frame).Info?
  {
  }

  lemma SendPendingCounts(c: Conn, k: Kind)
    ensures Count(SendPending(c).1, k) == 0
  {
    hide One, IFrame, Unsent, MarkSent;
    var out := SendPending(c).1;
    forall a | a in out ensures One(a, k) == 0 {
      var i :| 0 <= i < |out| && a == out[i];
      InfoCounts(c, Sent(c)[i], c.tx.queue[Sent(c)[i]].data, k);
    }
    CountNone(out, k);
  }

  lemma InfoCounts(c: Conn, ns: Seq8, data: seq<byte>, k: Kind)
    ensures One(IFrame(c, ns, data), k) == 0
  {
    hide PduOf, IFrame;
    IsInfo(c, ns, data);
  }

  /** Leaving adds no frame to those sent first. */
  lemma LeaveCounts(c: Conn, first: seq<Action>, k: Kind)
    ensures Count(Leave(c, first).out, k) == Count(first, k)
  {
    hide Clear;
    var end := EnterDisconnected(c).1;
    CountNone(end, k);
    CountAppend(first, end, k);
  }

  lemma ReportCounts(fault: Fault, retries: nat, first: seq<Action>, k: Kind)
    ensures Count([Fail(fault, retries)] + first, k) == Count(first, k)
  {
    CountOne(Fail(fault, retries), k);
    CountAppend([Fail(fault, retries)], first, k);
  }

  // ---- S and I frames in a live session ---------------------------------------------------------------------------

  lemma PolledCounts(c: Conn, pf: bool, command: bool, k: Kind)
    ensures Count(AckIfPolled(c, pf, command), k) == Bit(pf && command && k == Finals)
  {
    hide Ack;
    AckCounts(c, true, k);
  }

  lemma ResumedCounts(c: Conn, w: Tx, pf: bool, command: bool, k: Kind)
    ensures Count(Resumed(c, w, pf, command).out, k) == Bit(pf && command && k == Finals)
  {
    hide SendPending, AckIfPolled, Count;
    var c1 := c.(peerBusy := false);
    PolledCounts(c1, pf, command, k);
    SendPendingCounts(c1.(tx := w), k);
    CountAppend(AckIfPolled(c1, pf, command), SendPending(c1.(tx := w)).1, k);
  }

  lemma SupervisedCounts(c: Conn, s: SupKind, nr: Seq8, pf: bool, command: bool, k: Kind)
    ensures Count(Supervised(c, s, nr, pf, command).out, k) == Bit(pf && command && s != OtherS && k == Finals)
  {
    hide Resumed, AckIfPolled, Count, MarkUnsent;
    ResumedCounts(c, c.tx, pf, command, k);
    ResumedCounts(c, MarkUnsent(c.tx, nr), pf, command, k);
    PolledCounts(c.(peerBusy := true), pf, command, k);
    CountNone([], k);
  }

  lemma RecoverySupCounts(c: Conn, s: SupKind, nr: Seq8, pf: bool, command: bool, k: Kind)
    requires IsValidNr(c.tx, nr)
    ensures Count(RecoverySup(c, s, nr, pf, command).out, k) == Bit(pf && command && s != OtherS && k == Finals)
  {
    hide Prepared, Restarted, AckIfPolled, Count, IsValidNr;
    var final := pf && !command;
    var d := Prepared(c, s, nr, final);
    var again := d.tx.va != d.tx.vs && (final || s.REJ?);
    PolledCounts(d, pf, command, k);
    RestartedCounts(d, again, k);
    CountNone([], k);
    CountAppend(if s.OtherS? then [] else AckIfPolled(d, pf, command), Restarted(d, again).1, k);
  }

  lemma RestartedCounts(d: Conn, again: bool, k: Kind)
    ensures Count(Restarted(d, again).1, k) == 0
  {
    hide SendPending;
    SendPendingCounts(d, k);
    SendPendingCounts(d.(t3 := false), k);
  }

  lemma ReceiveCounts(c: Conn, ns: Seq8, pf: bool, payload: seq<byte>, k: Kind)
    ensures Count(Receive(c, ns, pf, payload).1, k) ==
            Bit(pf && k == Finals) + Bit(ns != c.vr && !c.rejSent && k == Rejects)
  {
    hide Count, RejectOnce, AckSoon;
    RejectCounts(c, pf, k);
    AckSoonCounts(c, pf, k);
    var d := c.(vr := Next(c.vr), rejSent := false);
    AckSoonCounts(d, pf, k);
    CountOne(Data(payload), k);
    CountAppend([Data(payload)], AckSoon(d, pf).1, k);
    assert [] + AckSoon(d, pf).1 == AckSoon(d, pf).1;
  }

  lemma AckSoonCounts(c: Conn, pf: bool, k: Kind)
    ensures Count(AckSoon(c, pf).1, k) == Bit(pf && k == Finals)
  {
    hide Ack;
    AckCounts(c, true, k);
  }

  lemma RejectCounts(c: Conn, pf: bool, k: Kind)
    ensures Count(RejectOnce(c, pf).1, k) == Bit(pf && k == Finals) + Bit(!c.rejSent && k == Rejects)
  {
    hide Ack, SFrame;
    AckCounts(c, true, k);
    SCounts(c, REJ, pf, false, k);
  }

  lemma InfoAnswers(c: Conn, ns: Seq8, nr: Seq8, pf: bool, payload: seq<byte>, k: Kind)
    requires Live(c) && IsValidNr(c.tx, nr)
    ensures var o := if c.state == Connected then ConnectedInfo(c, ns, nr, pf, payload)
            else RecoveryInfo(c, ns, nr, pf, payload);
            Count(o.out, k) == Bit(pf && k == Finals) + Bit(ns != c.vr && !c.rejSent && k == Rejects)
  {
    hide Receive, SendPending, HandleNr, Count, IsValidNr;
    HandleNrVoice(c, nr);
    var c1 := HandleNr(c, nr).(peerBusy := false);
    ReceiveCounts(c1, ns, pf, payload, k);
    var (d, out) := Receive(c1, ns, pf, payload);
    var e := if ns == c.vr then d.(t3 := true) else d;
    SendPendingCounts(e, k);
    CountAppend(out, SendPending(e).1, k);
  }

  // ---- What calls for which frame ---------------------------------------------------------------------------------

  predicate Heard(c: Conn, e: Event) { e.Arrive? && Accepts(c, e.frame) }

  /** V(A) <= N(R) <= V(S), counted modulo 8 from V(A). */
  predicate GoodNr(c: Conn, nr: Seq8) { Off(c.tx.va, nr) <= Off(c.tx.va, c.tx.vs) }

  predicate HearsU(c: Conn, e: Event, u: UnnumKind) {
    Heard(c, e) && PduOf(e.frame).Unnum? && PduOf(e.frame).ukind == u
  }

  /** An I frame or an S command with the P bit and a good N(R). */
  predicate Polled(c: Conn, e: Event) {
    && Heard(c, e) && Live(c)
    && match PduOf(e.frame)
       case Info(_, nr, pf, _) => pf && GoodNr(c, nr)
       case Sup(s, nr, pf, command) => pf && command && s != OtherS && GoodNr(c, nr)
       case _ => false
  }

  /** An I frame out of sequence, the first since the last one in sequence. */
  predicate Missed(c: Conn, e: Event) {
    && Heard(c, e) && Live(c) && PduOf(e.frame).Info? && GoodNr(c, PduOf(e.frame).nr)
    && PduOf(e.frame).ns != c.vr && !c.rejSent
  }

  predicate Misnumbered(c: Conn, e: Event) {
    && Heard(c, e) && Live(c)
    && match PduOf(e.frame)
       case Info(_, nr, _, _) => !GoodNr(c, nr)
       case Sup(_, nr, _, _) => !GoodNr(c, nr)
       case _ => false
  }

  /** The tries already made; a poll from CONNECTED is the first. */
  function Tries(c: Conn): nat { if c.state == Connected then 0 else c.retry }

  /** T1 expires when the tries are used up. */
  predicate GivesUp(c: Conn, e: Event) { e.T1? && c.state != Disconnected && Tries(c) >= c.cfg.n2 }

  predicate Retries(c: Conn, e: Event) { e.T1? && c.state != Disconnected && !GivesUp(c, e) }

  predicate Dials(c: Conn, e: Event) { e.Dial? && c.state == Disconnected && |e.digis| <= 8 }

  predicate Closes(c: Conn, e: Event) { e.Hangup? && c.state != Disconnected && c.state != AwaitingRelease }

  /** How many frames of each kind a step sends. */
  function Sends(c: Conn, e: Event, k: Kind): nat {
    Bit(match k
        case Finals => Polled(c, e)
        case Rejects => Missed(c, e)
        case Acks => Live(c) && ((e.T2? && c.ackPending) || (e.Busy? && e.busy != c.localBusy))
        case Polls => (Live(c) && Retries(c, e)) || (c.state == Connected && e.T3?)
        case Sabms =>
          || Dials(c, e) || (c.state == AwaitingConnection && Retries(c, e))
          || Misnumbered(c, e) || (Live(c) && HearsU(c, e, FRMR))
        case Discs => Closes(c, e) || (c.state == AwaitingRelease && Retries(c, e))
        case Uas =>
          || (HearsU(c, e, SABM) && c.state != AwaitingRelease && (c.state == Disconnected ==> !e.refuse))
          || (HearsU(c, e, DISC) && (Live(c) || c.state == AwaitingRelease))
        case Dms =>
          || (HearsU(c, e, SABM) && (c.state == AwaitingRelease || (c.state == Disconnected && e.refuse)))
          || (HearsU(c, e, DISC) && (c.state == Disconnected || c.state == AwaitingConnection))
          || (Live(c) && GivesUp(c, e)))
  }

  lemma UnnumSends(c: Conn, f: Frame, refuse: bool, k: Kind)
    requires PduOf(f).Unnum? && Accepts(c, f)
    ensures Count(Dispatch(c, f, refuse).out, k) == Sends(c, Arrive(f, refuse), k)
  {
    hide PduOf, Accepts, Count, UFrame, Leave, Reset, SetPath;
    CountNone([], k);
    if Live(c) { LiveUnnumSends(c, f, k); }
    else if c.state == Disconnected { IdleUnnumSends(c, f, refuse, k); }
    else { WaitingUnnumSends(c, f, refuse, k); }
  }

  lemma LiveUnnumSends(c: Conn, f: Frame, k: Kind)
    requires PduOf(f).Unnum? && Live(c)
    ensures var u := PduOf(f).ukind;
            Count(LiveUnnum(c, f, u, PduOf(f).upf).out, k) ==
                Bit((k == Uas && (u == SABM || u == DISC)) || (k == Sabms && u == FRMR))
  {
    hide PduOf, Count, UFrame, Leave, Reset, SetPath;
    var u, pf := PduOf(f).ukind, PduOf(f).upf;
    CountNone([], k);
    match u
    case SABM =>
      var d := Reset(SetPath(c, f.digipeaters));
      UCounts(d, UA, pf, k);
      CountOne(LinkReset, k);
      CountAppend([LinkReset], [UFrame(d, UA, pf)], k);
      CountAppend([], [UFrame(d, UA, pf)], k);
    case DISC => UCounts(c, UA, pf, k); LeaveCounts(c, [UFrame(c, UA, pf)], k);
    case DM => LeaveCounts(c, [Fail(DmReceived, c.retry)], k); CountOne(Fail(DmReceived, c.retry), k);
    case FRMR => RedialCounts(c, k);
    case _ =>
  }

  lemma RedialCounts(c: Conn, k: Kind)
    ensures Count(Redial(c).out, k) == Bit(k == Sabms) == Count(NrErrorRecovery(c).out, k)
  {
    hide Count, UFrame, Clear;
    var a, b := UFrame(Reset(c), SABM, true), UFrame(Reset(StopTimers(c)), SABM, true);
    UCounts(Reset(c), SABM, true, k);
    UCounts(Reset(StopTimers(c)), SABM, true, k);
    ReportCounts(FrmrReceived, c.retry, [a], k);
    ReportCounts(BadNr, c.retry, [b], k);
    assert [Fail(FrmrReceived, c.retry)] + [a] == [Fail(FrmrReceived, c.retry), a];
    assert [Fail(BadNr, c.retry)] + [b] == [Fail(BadNr, c.retry), b];
  }

  lemma IdleUnnumSends(c: Conn, f: Frame, refuse: bool, k: Kind)
    requires PduOf(f).Unnum? && c.state == Disconnected
    ensures var u := PduOf(f).ukind;
            Count(Dispatch(c, f, refuse).out, k) ==
                Bit((k == Uas && u == SABM && !refuse) || (k == Dms && (u == DISC || (u == SABM && refuse))))
  {
    hide PduOf, Count, UFrame, Leave, Reset, SetPath;
    var pf := PduOf(f).upf;
    var c1 := SetPath(c.(peer := c.peer.(remote := f.source, remoteSet := true)), f.digipeaters);
    CountNone([], k);
    UCounts(c1, DM, pf, k);
    LeaveCounts(c1, [UFrame(c1, DM, pf)], k);
    UCounts(Reset(c1), UA, pf, k);
    UCounts(c, DM, pf, k);
  }

  lemma WaitingUnnumSends(c: Conn, f: Frame, refuse: bool, k: Kind)
    requires PduOf(f).Unnum? && (c.state == AwaitingConnection || c.state == AwaitingRelease)
    ensures var u := PduOf(f).ukind;
            Count(Dispatch(c, f, refuse).out, k) ==
                Bit(if c.state == AwaitingConnection then (k == Uas && u == SABM) || (k == Dms && u == DISC)
                    else (k == Uas && u == DISC) || (k == Dms && u == SABM))
  {
    hide PduOf, Count, UFrame, Leave, Reset, SetPath;
    var pf := PduOf(f).upf;
    CountNone([], k);
    UCounts(c, DM, pf, k);
    UCounts(c, UA, pf, k);
    UCounts(Reset(SetPath(c, f.digipeaters)), UA, pf, k);
    LeaveCounts(c, [], k);
    LeaveCounts(c, [UFrame(c, UA, pf)], k);
    LeaveCounts(c, [Fail(Refused, c.retry)], k);
    CountOne(Fail(Refused, c.retry), k);
  }

  lemma GoodNrIs(c: Conn, nr: Seq8)
    ensures GoodNr(c, nr) <==> IsValidNr(c.tx, nr)
  {
    ValidNrMeaning(c.tx, nr);
  }

  lemma LiveSends(c: Conn, f: Frame, k: Kind)
    requires Live(c) && !PduOf(f).Unnum? && Accepts(c, f)
    ensures Count(HandleLive(c, f).out, k) == Sends(c, Arrive(f, false), k) == Sends(c, Arrive(f, true), k)
  {
    hide PduOf, Accepts, Count, Supervised, RecoverySup, ConnectedInfo, RecoveryInfo, HandleNr, NrErrorRecovery,
        IsValidNr, GoodNr;
    RedialCounts(c, k);
    CountNone([], k);
    match PduOf(f)
    case Sup(s, nr, pf, command) =>
      GoodNrIs(c, nr);
      SupervisedCounts(HandleNr(c, nr), s, nr, pf, command, k);
      if IsValidNr(c.tx, nr) { RecoverySupCounts(c, s, nr, pf, command, k); }
      else { Refuses(c, s, nr, pf, command, 0, []); }
    case Info(ns, nr, pf, payload) =>
      GoodNrIs(c, nr);
      if IsValidNr(c.tx, nr) { InfoAnswers(c, ns, nr, pf, payload, k); }
      else { Refuses(c, RR, nr, pf, false, ns, payload); }
    case NoPdu =>
  }

  lemma FrameSends(c: Conn, f: Frame, refuse: bool, k: Kind)
    ensures Count(OnFrame(c, f, refuse).out, k) == Sends(c, Arrive(f, refuse), k)
  {
    hide PduOf, Accepts, Count, HandleLive, UFrame, Leave, Reset, SetPath, GoodNr, Dispatch;
    CountNone([], k);
    if Accepts(c, f) {
      if PduOf(f).Unnum? { UnnumSends(c, f, refuse, k); }
      else if Live(c) { LiveSends(c, f, k); DispatchLive(c, f, refuse); }
      else { ClosedSteady(c, f, refuse); }
    }
  }

  lemma DispatchLive(c: Conn, f: Frame, refuse: bool)
    requires Live(c)
    ensures Dispatch(c, f, refuse) == HandleLive(c, f)
  {
    hide HandleLive;
  }

  /** What an expiry of T1 sends: another poll, SABM or DISC, and at the end of the tries of a live session a DM. */
  function Asks(c: Conn, k: Kind): bool {
    if Live(c) then k == if Tries(c) < c.cfg.n2 then Polls else Dms
    else
      c.retry < c.cfg.n2
      && ((k == Sabms && c.state == AwaitingConnection) || (k == Discs && c.state == AwaitingRelease))
  }

  lemma T1Sends(c: Conn, late: bool, k: Kind)
    ensures Count(OnT1(c, late).out, k) == Sends(c, T1(late), k)
  {
    hide Count, T1Expired, Sends;
    SendsAsks(c, late, k);
    T1Counts(c.(t1 := c.t1 && late), k);
  }

  lemma T1Counts(c: Conn, k: Kind)
    ensures Count(T1Expired(c).out, k) == Bit(Asks(c, k))
  {
    hide Count, T1Expired, PollPeer;
    if c.state == Connected {
      T1FromLive(c);
      PollCounts(c.(state := TimerRecovery, retry := 0), k);
    } else if c.state == TimerRecovery {
      T1FromLive(c);
      PollCounts(c, k);
    } else {
      AskCounts(c, k);
    }
  }

  lemma SendsAsks(c: Conn, late: bool, k: Kind)
    ensures Sends(c, T1(late), k) == Bit(Asks(c, k))
  {
    hide Accepts, PduOf;
  }

  lemma AskCounts(c: Conn, k: Kind)
    requires !Live(c)
    ensures Count(T1Expired(c).out, k) ==
            Bit(c.retry < c.cfg.n2 && ((k == Sabms && c.state == AwaitingConnection)
                || (k == Discs && c.state == AwaitingRelease)))
  {
    hide Count, UFrame, Leave;
    CountNone([], k);
    UCounts(c, SABM, true, k);
    UCounts(c, DISC, true, k);
    CountOne(Fail(ConnectTimeout, c.retry), k);
    CountOne(Fail(ReleaseTimeout, c.retry), k);
    LeaveCounts(c, [Fail(ConnectTimeout, c.retry)], k);
    LeaveCounts(c, [Fail(ReleaseTimeout, c.retry)], k);
  }

  lemma PollCounts(c: Conn, k: Kind)
    ensures Count(PollPeer(c).out, k) == Bit(k == if c.retry < c.cfg.n2 then Polls else Dms)
  {
    hide Count, UFrame, SFrame, Leave;
    SCounts(c, RR, true, true, k);
    UCounts(c, DM, true, k);
    var dm := UFrame(c, DM, true);
    LeaveCounts(c, [Fail(LinkFailure, c.retry), dm], k);
    ReportCounts(LinkFailure, c.retry, [dm], k);
    assert [Fail(LinkFailure, c.retry)] + [dm] == [Fail(LinkFailure, c.retry), dm];
  }

  lemma SendingSends(c: Conn, data: seq<byte>, k: Kind)
    ensures Count(SendData(c, data).out, k) == 0 == Sends(c, Send(data), k)
  {
    hide Count, SendPending, Enqueue, CanQueue, Accepts, PduOf;
    CountNone([], k);
    SendPendingCounts(Queued(c, data), k);
  }

  lemma CallSends(c: Conn, e: Event, k: Kind)
    requires e.Dial? || e.Hangup?
    ensures Count(Step(c, e).out, k) == Sends(c, e, k)
  {
    hide Count, UFrame, Reset, SetPath, Accepts, PduOf;
    CountNone([], k);
    if e.Dial? {
      UCounts(Reset(SetPath(c.(peer := c.peer.(remote := e.remote, remoteSet := true)), e.digis)), SABM, true, k);
    }
    UCounts(c, DISC, true, k);
  }

  lemma BusySends(c: Conn, busy: bool, k: Kind)
    ensures Count(SetBusy(c, busy).out, k) == Sends(c, Busy(busy), k)
  {
    hide Count, SFrame, Accepts, PduOf;
    CountNone([], k);
    SCounts(c.(localBusy := busy), RNR, false, false, k);
    SCounts(c.(localBusy := busy), RR, false, false, k);
  }

  lemma T2Sends(c: Conn, late: bool, k: Kind)
    ensures Count(OnT2(c, late).out, k) == Sends(c, T2(late), k)
  {
    hide Count, Ack, Accepts, PduOf;
    CountNone([], k);
    AckCounts(c.(t2 := c.t2 && late), false, k);
  }

  lemma T3Sends(c: Conn, late: bool, k: Kind)
    ensures Count(OnT3(c, late).out, k) == Sends(c, T3(late), k)
  {
    hide Count, SFrame, Accepts, PduOf;
    CountNone([], k);
    SCounts(c.(t3 := c.t3 && late), RR, true, true, k);
  }

  /** Exactly how many frames of each kind every step sends.  A poll is answered at once and once, a gap is rejected
      once until it closes, a plain acknowledgement is sent only by T2 or a change of busy, a poll only by T1 or T3,
      and the U frames are those of the link table. */
  lemma StepSends(c: Conn, e: Event, k: Kind)
    ensures Count(Step(c, e).out, k) == Sends(c, e, k)
  {
    hide Count, Sends, OnFrame, OnT1, OnT2, OnT3, Connect, SendData, Shutdown, SetBusy;
    match e
    case Arrive(f, refuse) => FrameSends(c, f, refuse, k);
    case T1(late) => T1Sends(c, late, k);
    case T2(late) => T2Sends(c, late, k);
    case T3(late) => T3Sends(c, late, k);
    case Send(data) => SendingSends(c, data, k);
    case Busy(busy) => BusySends(c, busy, k);
    case _ => CallSends(c, e, k);
  }
}

/** The life of a session from end to end: which frames it heeds, what a new, redialled or ended session starts from,
    what every call answers, and what each step delivers and does to the three sequence variables. */
module ConnLife {
  import opened Ax25Types
  import opened TxWindow
  import opened ConnSpec
  import opened ConnInvariants
  import opened ConnEffects
  import opened ConnSpeech
  import opened ConnAnswers
  import opened ConnTable

  // ---- Which frames are heeded ------------------------------------------------------------------------------------

  /** A frame is heeded exactly if it is not a UI frame, is addressed to this station, has been repeated by every
      digipeater, and comes from the peer when there is one.  Any other frame changes and sends nothing. */
  lemma HeededExactly(c: Conn, f: Frame, refuse: bool)
    ensures Heard(c, Arrive(f, refuse)) <==>
            && f.ftype != UI
            && f.destination.callsign == c.peer.local.callsign && f.destination.ssid == c.peer.local.ssid
            && (forall i :: 0 <= i < |f.digipeaters| ==> f.digipeaters[i].repeated)
            && (c.state == Disconnected || !c.peer.remoteSet
                || (f.source.callsign == c.peer.remote.callsign && f.source.ssid == c.peer.remote.ssid))
    ensures !Heard(c, Arrive(f, refuse)) ==> Step(c, Arrive(f, refuse)) == Outcome(c, [], OK, false)
  {
    hide Dispatch;
  }

  // ---- The answers of the calls -----------------------------------------------------------------------------------

  /** The result code of every section. */
  function Answer(c: Conn, e: Event): Code {
    match e
    case Dial(_, digis) => if |digis| > 8 then InvalidArg else if c.state != Disconnected then InvalidState else OK
    case Send(data) =>
      if data == [] then InvalidArg
      else if |data| > 256 then InvalidSize
      else if c.state != Connected && c.state != TimerRecovery then InvalidState
      else if Off(c.tx.va, c.tx.vs) >= c.cfg.window then NoMem
      else OK
    case _ => if Misnumbered(c, e) then InvalidResponse else OK
  }

  lemma LiveCode(c: Conn, f: Frame, refuse: bool)
    requires Live(c) && Accepts(c, f)
    ensures HandleLive(c, f).code == Answer(c, Arrive(f, refuse))
  {
    hide PduOf, Accepts, HandleNr, SendPending, Prepared, Restarted, Receive, IsValidNr, EnterDisconnected, GoodNr;
    match PduOf(f)
    case Sup(s, nr, pf, command) => GoodNrIs(c, nr);
    case Info(ns, nr, pf, payload) => GoodNrIs(c, nr);
    case _ =>
  }

  lemma FrameCode(c: Conn, f: Frame, refuse: bool)
    ensures OnFrame(c, f, refuse).code == Answer(c, Arrive(f, refuse))
  {
    hide PduOf, Accepts, HandleLive, EnterDisconnected, Reset, UFrame, SetPath, GoodNr;
    if Live(c) && Accepts(c, f) { LiveCode(c, f, refuse); }
  }

  lemma T1Code(c: Conn, late: bool)
    ensures OnT1(c, late).code == OK
  {
    hide EnterDisconnected, UFrame, SFrame;
  }

  /** What every call and every arrival returns. */
  lemma StepAnswers(c: Conn, e: Event)
    requires Inv(c)
    ensures Step(c, e).code == Answer(c, e)
    ensures Step(c, e).code != OK && !e.Arrive? ==> Step(c, e).conn == c && Step(c, e).out == []
  {
    hide OnFrame, OnT1, UFrame, SFrame, Ack, Reset, SetPath, SendPending, Enqueue, Accepts, PduOf;
    match e
    case Arrive(f, refuse) => FrameCode(c, f, refuse);
    case T1(late) => T1Code(c, late);
    case Send(data) => SlotFreeInsideWindow(c);
    case _ =>
  }

  // ---- New, redialled and ended sessions --------------------------------------------------------------------------

  /** Nothing of an earlier session is left: numbers, window, flags and tries are those of a new one. */
  ghost predicate Fresh(c: Conn, d: Conn) {
    && d.tx.va == 0 && d.tx.vs == 0 && d.vr == 0 && (forall s: Seq8 :: d.tx.queue[s].data == [] && !d.tx.queue[s].inUse)
    && !d.peerBusy && !d.localBusy && !d.rejSent && !d.ackPending && d.retry == 0 && d.cfg == c.cfg
  }

  lemma ResetFresh(c: Conn, d: Conn)
    requires d == Reset(c).(state := d.state, t1 := d.t1, t2 := d.t2, t3 := d.t3, peer := d.peer)
    ensures Fresh(c, d)
  {
  }

  predicate Finishes(c: Conn, e: Event) { c.state != Disconnected && Step(c, e).conn.state == Disconnected }

  /** What the timers are set to when a session opens, is dialled, or is over. */
  predicate Rearmed(c: Conn, d: Conn) {
    match d.state
    case Connected => !d.t1 && d.t3
    case AwaitingConnection => d.t1
    case Disconnected => !d.t1 && !d.t2 && !d.t3
    case _ => false
  }

  /** The section ends in a fresh session. */
  ghost predicate Renewed(c: Conn, o: Outcome) { Fresh(c, o.conn) && Rearmed(c, o.conn) }

  lemma LeaveRenews(c: Conn, first: seq<Action>)
    ensures Renewed(c, Leave(c, first)) && Leave(c, first).conn.state == Disconnected
  {
    hide Fresh, Clear;
    ResetFresh(StopTimers(c), EnterDisconnected(c).0);
    SameFresh(StopTimers(c), c, EnterDisconnected(c).0);
  }

  lemma SameFresh(b: Conn, c: Conn, d: Conn)
    requires b.cfg == c.cfg
    ensures Fresh(b, d) <==> Fresh(c, d)
  {
  }

  lemma RedialRenews(c: Conn)
    ensures Renewed(c, Redial(c)) && Renewed(c, NrErrorRecovery(c))
  {
    hide Fresh, Clear, UFrame;
    ResetFresh(c, Redial(c).conn);
    ResetFresh(StopTimers(c), NrErrorRecovery(c).conn);
    SameFresh(StopTimers(c), c, NrErrorRecovery(c).conn);
  }

  lemma CallRenews(c: Conn, f: Frame, pf: bool)
    ensures Renewed(c, Meet(c, f, pf)) && Renewed(c, Relink(c, f, pf))
    ensures !c.t1 ==> Renewed(c, Greet(c, f, pf, false))
    ensures Renewed(c, Outcome(Reset(c.(t1 := false)).(state := Connected, t3 := true), [], OK, true))
  {
    hide Fresh, Clear, UFrame;
    var b := SetPath(c, f.digipeaters);
    var g := SetPath(c.(peer := c.peer.(remote := f.source, remoteSet := true)), f.digipeaters);
    ResetFresh(b, Meet(c, f, pf).conn);
    ResetFresh(b, Relink(c, f, pf).conn);
    ResetFresh(g, Greet(c, f, pf, false).conn);
    ResetFresh(c.(t1 := false), Reset(c.(t1 := false)).(state := Connected, t3 := true));
    SameFresh(b, c, Meet(c, f, pf).conn);
    SameFresh(b, c, Relink(c, f, pf).conn);
    SameFresh(g, c, Greet(c, f, pf, false).conn);
    SameFresh(c.(t1 := false), c, Reset(c.(t1 := false)).(state := Connected, t3 := true));
  }

  lemma DialRenews(c: Conn, remote: Address, digis: seq<Address>)
    ensures Renewed(c, Call(c, remote, digis))
  {
    hide Fresh, Clear, UFrame;
    var g := SetPath(c.(peer := c.peer.(remote := remote, remoteSet := true)), digis);
    ResetFresh(g, Call(c, remote, digis).conn);
    SameFresh(g, c, Call(c, remote, digis).conn);
  }

  lemma UnnumRenews(c: Conn, f: Frame, refuse: bool)
    requires PduOf(f).Unnum? && Accepts(c, f) && Inv(c)
    ensures var o, e := Dispatch(c, f, refuse), Arrive(f, refuse);
            Opens(c, e) || Redials(c, e) || (c.state != Disconnected && o.conn.state == Disconnected) ==> Renewed(c, o)
  {
    hide PduOf, Accepts, UFrame, Leave, Greet, Meet, Relink, Redial, Reset, Renewed, TxInv, InFlight, Backlog;
    var pf := PduOf(f).upf;
    CallRenews(c, f, pf);
    RedialRenews(c);
    LeaveRenews(c, []);
    LeaveRenews(c, [UFrame(c, UA, pf)]);
    LeaveRenews(c, [Fail(DmReceived, c.retry)]);
    LeaveRenews(c, [Fail(Refused, c.retry)]);
  }

  lemma LiveRenews(c: Conn, f: Frame)
    requires Live(c) && !PduOf(f).Unnum? && !Live(HandleLive(c, f).conn)
    ensures HandleLive(c, f) == NrErrorRecovery(c)
  {
    hide PduOf, Supervised, RecoverySup, ConnectedInfo, RecoveryInfo, HandleNr, NrErrorRecovery, IsValidNr;
    match PduOf(f)
    case Sup(s, nr, pf, command) =>
      if !IsValidNr(c.tx, nr) { Refuses(c, s, nr, pf, command, 0, []); }
      else if c.state == TimerRecovery { RecoverySupGoes(c, s, nr, pf, command); }
      else { HandleNrVoice(c, nr); SupervisedGoes(HandleNr(c, nr), s, nr, pf, command); }
    case Info(ns, nr, pf, payload) =>
      if IsValidNr(c.tx, nr) { InfoGoes(c, ns, nr, pf, payload); }
      else { Refuses(c, RR, nr, pf, false, ns, payload); }
    case NoPdu =>
  }

  lemma FrameRenews(c: Conn, f: Frame, refuse: bool)
    requires Inv(c)
    ensures var o, e := OnFrame(c, f, refuse), Arrive(f, refuse);
            Opens(c, e) || Redials(c, e) || (c.state != Disconnected && o.conn.state == Disconnected) ==> Renewed(c, o)
  {
    hide PduOf, Accepts, Dispatch, HandleLive, Renewed, GoodNr, Inv;
    if Accepts(c, f) {
      if PduOf(f).Unnum? { UnnumRenews(c, f, refuse); }
      else if Live(c) {
        DispatchLive(c, f, refuse);
        FrameGoes(c, f, refuse);
        RedialRenews(c);
        if !Live(HandleLive(c, f).conn) { LiveRenews(c, f); }
      } else { ClosedSteady(c, f, refuse); }
    }
  }

  lemma T1Renews(c: Conn)
    ensures var o := T1Expired(c); c.state != Disconnected && o.conn.state == Disconnected ==> Renewed(c, o)
  {
    hide T1Expired, Renewed, PollPeer;
    if Live(c) {
      T1FromLive(c);
      PollRenews(c, if c.state == Connected then c.(state := TimerRecovery, retry := 0) else c);
    } else { AskRenews(c); }
  }

  lemma AskRenews(c: Conn)
    requires !Live(c)
    ensures var o := T1Expired(c); c.state != Disconnected && o.conn.state == Disconnected ==> Renewed(c, o)
  {
    hide UFrame, Leave, Renewed;
    LeaveRenews(c, [Fail(ConnectTimeout, c.retry)]);
    LeaveRenews(c, [Fail(ReleaseTimeout, c.retry)]);
  }

  lemma PollRenews(b: Conn, c: Conn)
    requires b.cfg == c.cfg && c.state == TimerRecovery
    ensures PollPeer(c).conn.state == Disconnected ==> Renewed(b, PollPeer(c))
  {
    hide UFrame, SFrame, Leave, Fresh;
    LeaveRenews(c, [Fail(LinkFailure, c.retry), UFrame(c, DM, true)]);
    SameFresh(b, c, PollPeer(c).conn);
  }

  lemma RenewedAs(b: Conn, c: Conn, o: Outcome)
    requires b.cfg == c.cfg
    ensures Renewed(b, o) <==> Renewed(c, o)
  {
  }

  lemma OtherLasts(c: Conn, e: Event)
    requires e.T2? || e.T3? || e.Send? || e.Hangup? || e.Busy?
    ensures !Finishes(c, e)
  {
    hide Step, NextRetry, Joins, Hears, Reports;
    StepGoes(c, e);
  }

  /** Every opening, reset, call, redial and end starts from scratch, with the timer its state needs. */
  lemma StepRenews(c: Conn, e: Event)
    requires Inv(c) && (Opens(c, e) || Redials(c, e) || Dials(c, e) || Finishes(c, e))
    ensures Renewed(c, Step(c, e))
  {
    hide Inv, Opens, Redials, Renewed, OnFrame, T1Expired, Call;
    match e
    case Arrive(f, refuse) => FrameRenews(c, f, refuse);
    case T1(late) =>
      NoneOpen(c, e);
      T1Renews(c.(t1 := c.t1 && late));
      RenewedAs(c, c.(t1 := c.t1 && late), OnT1(c, late));
    case Dial(remote, digis) => NoneOpen(c, e); DialRenews(c, remote, digis);
    case _ => NoneOpen(c, e); OtherLasts(c, e);
  }

  lemma NoneOpen(c: Conn, e: Event)
    requires !e.Arrive?
    ensures !Opens(c, e) && !Redials(c, e)
  {
  }

  // ---- The F bit of an answer -------------------------------------------------------------------------------------

  /** Every UA and DM among the actions has this F bit. */
  ghost predicate Echo(out: seq<Action>, pf: bool) {
    forall a :: a in out && a.Transmit? && PduOf(a.frame).Unnum? && PduOf(a.frame).ukind in {UA, DM} ==>
        PduOf(a.frame).upf == pf
  }

  lemma UEcho(c: Conn, u: UnnumKind, pf: bool)
    requires !u.OtherU? && !u.FRMR?
    ensures Echo([UFrame(c, u, pf)], pf)
  {
    hide PduOf, UFrame;
    UFrameDecodes(c, u, pf);
  }

  lemma SabmEcho(c: Conn, pf: bool)
    ensures Echo([UFrame(c, SABM, true)], pf)
  {
    hide PduOf, UFrame;
    UFrameDecodes(c, SABM, true);
  }

  lemma EchoAppend(a: seq<Action>, b: seq<Action>, pf: bool)
    requires Echo(a, pf) && Echo(b, pf)
    ensures Echo(a + b, pf)
  {
    hide PduOf;
  }

  lemma NoEcho(out: seq<Action>, pf: bool)
    requires forall a :: a in out ==> !a.Transmit?
    ensures Echo(out, pf)
  {
  }

  lemma LeaveEcho(c: Conn, first: seq<Action>, pf: bool)
    requires Echo(first, pf)
    ensures Echo(Leave(c, first).out, pf)
  {
    hide PduOf, Clear;
    NoEcho(EnterDisconnected(c).1, pf);
    EchoAppend(first, EnterDisconnected(c).1, pf);
  }

  lemma UnnumEchoes(c: Conn, f: Frame, refuse: bool)
    requires PduOf(f).Unnum?
    ensures Echo(Dispatch(c, f, refuse).out, PduOf(f).upf)
  {
    hide PduOf, UFrame, Leave, Reset, SetPath, Echo;
    var pf := PduOf(f).upf;
    var g := SetPath(c.(peer := c.peer.(remote := f.source, remoteSet := true)), f.digipeaters);
    NoEcho([], pf);
    UEcho(c, UA, pf);
    UEcho(c, DM, pf);
    UEcho(g, DM, pf);
    UEcho(Reset(g), UA, pf);
    UEcho(Reset(SetPath(c, f.digipeaters)), UA, pf);
    NoEcho([LinkReset], pf);
    EchoAppend([LinkReset], [UFrame(Reset(SetPath(c, f.digipeaters)), UA, pf)], pf);
    EchoAppend([], [UFrame(Reset(SetPath(c, f.digipeaters)), UA, pf)], pf);
    LeaveEcho(c, [], pf);
    LeaveEcho(c, [UFrame(c, UA, pf)], pf);
    LeaveEcho(g, [UFrame(g, DM, pf)], pf);
    NoEcho([Fail(Refused, c.retry)], pf);
    NoEcho([Fail(DmReceived, c.retry)], pf);
    NoEcho([Fail(FrmrReceived, c.retry)], pf);
    LeaveEcho(c, [Fail(Refused, c.retry)], pf);
    LeaveEcho(c, [Fail(DmReceived, c.retry)], pf);
    SabmEcho(Reset(c), pf);
    EchoAppend([Fail(FrmrReceived, c.retry)], [UFrame(Reset(c), SABM, true)], pf);
    assert [Fail(FrmrReceived, c.retry)] + [UFrame(Reset(c), SABM, true)]
        == [Fail(FrmrReceived, c.retry), UFrame(Reset(c), SABM, true)];
  }

  lemma {:induction false} CountZero(out: seq<Action>, k: Kind)
    requires Count(out, k) == 0
    ensures forall a :: a in out ==> One(a, k) == 0
  {
    hide One;
    if out != [] { CountZero(out[1..], k); }
  }

  /** A UA or DM answers a U frame, and its F bit is that frame's P bit. */
  lemma AnswersEcho(c: Conn, f: Frame, refuse: bool, a: Action)
    requires var out := OnFrame(c, f, refuse).out;
             a in out && a.Transmit? && PduOf(a.frame).Unnum? && PduOf(a.frame).ukind in {UA, DM}
    ensures PduOf(f).Unnum? && PduOf(a.frame).upf == PduOf(f).upf
  {
    hide PduOf, Accepts, Dispatch, GoodNr;
    var e := Arrive(f, refuse);
    StepSends(c, e, Uas);
    StepSends(c, e, Dms);
    if Accepts(c, f) && PduOf(f).Unnum? { UnnumEchoes(c, f, refuse); }
    else {
      CountZero(Step(c, e).out, Uas);
      CountZero(Step(c, e).out, Dms);
      assert false;
    }
  }

  // ---- What is delivered, and the sequence variables --------------------------------------------------------------

  /** An I frame in sequence at an open station that is not busy. */
  predicate Takes(c: Conn, e: Event) {
    && Heard(c, e) && Live(c) && !c.localBusy && PduOf(e.frame).Info? && GoodNr(c, PduOf(e.frame).nr)
    && PduOf(e.frame).ns == c.vr
  }

  lemma SteadyPayloads(c: Conn, o: Outcome)
    requires Steady(c, o)
    ensures Payloads(o.out) == []
  {
    hide Emitted;
  }

  lemma UnnumDelivers(c: Conn, f: Frame, refuse: bool)
    requires PduOf(f).Unnum?
    ensures Payloads(Dispatch(c, f, refuse).out) == []
  {
    hide PduOf, Dispatch, Payloads, Emits, Restarting, Steady;
    var u := PduOf(f).ukind;
    if Restarting(c, f, refuse) { RestartEffect(c, f, refuse); }
    else if u == SABM || (u == UA && c.state == AwaitingConnection) { UnansweredEffect(c, f, refuse); }
    else if u == UA || u == DM || u == DISC {
      UnnumSteady(c, f, refuse);
      SteadyPayloads(c, Dispatch(c, f, refuse));
    } else { OtherUnnumDelivers(c, f, refuse); }
  }

  lemma OtherUnnumDelivers(c: Conn, f: Frame, refuse: bool)
    requires PduOf(f).Unnum? && (PduOf(f).ukind == FRMR || PduOf(f).ukind == OtherU)
    ensures Payloads(Dispatch(c, f, refuse).out) == []
  {
    hide PduOf, UFrame, Reset, Payloads;
    NoPayloads(Dispatch(c, f, refuse).out);
  }

  /** An S or I frame with a good N(R), in terms of what it acknowledges and delivers. */
  lemma LiveAdvances(c: Conn, f: Frame)
    requires Inv(c) && Live(c) && (PduOf(f).Sup? || PduOf(f).Info?)
    requires var p := PduOf(f); GoodNr(c, if p.Sup? then p.snr else p.nr)
    ensures var p := PduOf(f);
            Advances(c, HandleLive(c, f), if p.Sup? then p.snr else p.nr, p.Info? && p.ns == c.vr && !c.localBusy,
                     if p.Info? then p.payload else [])
  {
    hide Inv, PduOf, ConnectedSup, RecoverySup, ConnectedInfo, RecoveryInfo, Advances, GoodNr, IsValidNr;
    match PduOf(f)
    case Sup(s, nr, pf, command) =>
      GoodNrIs(c, nr);
      if c.state == Connected { ConnectedSupEffect(c, s, nr, pf, command); }
      else { RecoverySupEffect(c, s, nr, pf, command); }
    case Info(ns, nr, pf, payload) => GoodNrIs(c, nr); InfoEffect(c, ns, nr, pf, payload);
  }

  lemma BadNrDelivers(c: Conn, f: Frame)
    requires Live(c) && (PduOf(f).Sup? || PduOf(f).Info?)
    requires var p := PduOf(f); !GoodNr(c, if p.Sup? then p.snr else p.nr)
    ensures HandleLive(c, f) == NrErrorRecovery(c) && Payloads(NrErrorRecovery(c).out) == []
  {
    hide PduOf, ConnectedSup, RecoverySup, ConnectedInfo, RecoveryInfo, IsValidNr, GoodNr, UFrame, Reset, Payloads;
    NoPayloads(NrErrorRecovery(c).out);
    match PduOf(f)
    case Sup(s, nr, pf, command) => GoodNrIs(c, nr); Refuses(c, s, nr, pf, command, 0, []);
    case Info(ns, nr, pf, payload) => GoodNrIs(c, nr); Refuses(c, RR, nr, pf, false, ns, payload);
  }

  lemma AdvancesPayloads(c: Conn, o: Outcome, nr: Seq8, consumed: bool, payload: seq<byte>)
    requires Advances(c, o, nr, consumed, payload)
    ensures Payloads(o.out) == if consumed && payload != [] then [payload] else []
  {
    hide Emitted;
  }

  lemma FrameDelivers(c: Conn, f: Frame, refuse: bool)
    requires Inv(c)
    ensures var e := Arrive(f, refuse);
            Payloads(OnFrame(c, f, refuse).out) ==
            if Takes(c, e) && PduOf(f).payload != [] then [PduOf(f).payload] else []
  {
    hide Inv, PduOf, Accepts, Dispatch, HandleLive, Advances, GoodNr;
    if Accepts(c, f) {
      var p := PduOf(f);
      if p.Unnum? { UnnumDelivers(c, f, refuse); }
      else if !Live(c) { ClosedSteady(c, f, refuse); }
      else if p.NoPdu? { NothingHeard(c, f, refuse); }
      else {
        DispatchLive(c, f, refuse);
        var nr := if p.Sup? then p.snr else p.nr;
        if GoodNr(c, nr) {
          LiveAdvances(c, f);
          AdvancesPayloads(c, HandleLive(c, f), nr, p.Info? && p.ns == c.vr && !c.localBusy,
              if p.Info? then p.payload else []);
        } else { BadNrDelivers(c, f); }
      }
    }
  }

  lemma NothingHeard(c: Conn, f: Frame, refuse: bool)
    requires PduOf(f).NoPdu?
    ensures Dispatch(c, f, refuse) == Quiet(c)
  {
    hide PduOf;
  }

  lemma OtherDelivers(c: Conn, e: Event)
    requires Inv(c) && !e.Arrive?
    ensures Payloads(Step(c, e).out) == []
  {
    hide Inv, OnT1, OnT2, OnT3, SendData, Shutdown, SetBusy, UFrame, Reset, SetPath, Steady, Payloads, Accepted;
    match e
    case T1(late) => T1Steady(c, late); SteadyPayloads(c, Step(c, e));
    case T2(late) => T2Steady(c, late); SteadyPayloads(c, Step(c, e));
    case T3(late) => T3Steady(c, late); SteadyPayloads(c, Step(c, e));
    case Hangup => HangupSteady(c); SteadyPayloads(c, Step(c, e));
    case Busy(busy) => BusySteady(c, busy); SteadyPayloads(c, Step(c, e));
    case Send(data) => SendEffect(c, data); AcceptedPayloads(c, SendData(c, data), data);
    case Dial(_, _) => NoPayloads(Step(c, e).out);
  }

  lemma AcceptedPayloads(c: Conn, o: Outcome, data: seq<byte>)
    requires if o.code == OK then Accepted(c, o, data) else o == Refusal(c, o.code)
    ensures Payloads(o.out) == []
  {
    hide Emitted;
  }

  /** A payload is delivered when, and only when, an I frame in sequence reaches an open station that is not busy. */
  lemma StepDelivers(c: Conn, e: Event)
    requires Inv(c)
    ensures Payloads(Step(c, e).out) ==
            if Takes(c, e) && PduOf(e.frame).payload != [] then [PduOf(e.frame).payload] else []
  {
    hide Inv, OnFrame, PduOf, Accepts, GoodNr, Payloads;
    if e.Arrive? { FrameDelivers(c, e.frame, e.refuse); } else { OtherDelivers(c, e); }
  }

  /** How the sequence variables of an open session move, and that no queued payload in the window changes. */
  ghost predicate Moves(c: Conn, e: Event, d: Conn) {
    && d.vr == (if Takes(c, e) then (c.vr + 1) % 8 else c.vr)
    && d.tx.va == (if !Heard(c, e) then c.tx.va
                   else match PduOf(e.frame)
                        case Sup(_, nr, _, _) => nr
                        case Info(_, nr, _, _) => nr
                        case _ => c.tx.va)
    && d.tx.vs == (if e.Send? && Answer(c, e) == OK then (c.tx.vs + 1) % 8 else c.tx.vs)
    && (forall s: Seq8 :: Between(d.tx.va, s, c.tx.vs) ==> d.tx.queue[s].data == c.tx.queue[s].data)
    && (e.Send? && Answer(c, e) == OK ==> d.tx.queue[c.tx.vs].data == e.data)
  }

  lemma SteadyMoves(c: Conn, e: Event, o: Outcome)
    requires Steady(c, o) && Live(o.conn) && !e.Send? && !Heard(c, e)
    ensures Moves(c, e, o.conn)
  {
    hide Emitted;
  }

  lemma AdvancesMoves(c: Conn, f: Frame, refuse: bool, o: Outcome)
    requires Accepts(c, f) && Live(c) && (PduOf(f).Sup? || PduOf(f).Info?)
    requires var p := PduOf(f);
             var nr := if p.Sup? then p.snr else p.nr;
             GoodNr(c, nr) && Advances(c, o, nr, p.Info? && p.ns == c.vr && !c.localBusy,
                 if p.Info? then p.payload else [])
    ensures Moves(c, Arrive(f, refuse), o.conn)
  {
    hide Emitted, PduOf, Accepts, GoodNr;
  }

  lemma HeededMoves(c: Conn, f: Frame, refuse: bool)
    requires Inv(c) && Live(c) && Accepts(c, f) && Live(OnFrame(c, f, refuse).conn) && !IsCall(f)
    ensures Moves(c, Arrive(f, refuse), OnFrame(c, f, refuse).conn)
  {
    hide Inv, PduOf, Accepts, Dispatch, HandleLive, Advances, GoodNr, Moves;
    var p := PduOf(f);
    DispatchLive(c, f, refuse);
    if p.Sup? || p.Info? {
      if GoodNr(c, if p.Sup? then p.snr else p.nr) {
        LiveAdvances(c, f);
        AdvancesMoves(c, f, refuse, HandleLive(c, f));
      } else { BadNrDelivers(c, f); RedialGoes(c); assert false; }
    } else { StaysPut(c, f); QuietMoves(c, f, refuse); }
  }

  lemma StaysPut(c: Conn, f: Frame)
    requires Live(c) && Live(HandleLive(c, f).conn) && !IsCall(f) && (PduOf(f).Unnum? || PduOf(f).NoPdu?)
    ensures HandleLive(c, f) == Quiet(c)
  {
    hide PduOf, UFrame, Clear;
  }

  lemma QuietMoves(c: Conn, f: Frame, refuse: bool)
    requires PduOf(f).Unnum? || PduOf(f).NoPdu?
    ensures Moves(c, Arrive(f, refuse), c)
  {
    hide PduOf, Accepts;
  }

  lemma SendMoves(c: Conn, data: seq<byte>)
    requires Inv(c) && Live(c)
    ensures Moves(c, Send(data), SendData(c, data).conn)
  {
    hide Inv, Accepted, SendData, Moves;
    StepAnswers(c, Send(data));
    SendEffect(c, data);
    if SendData(c, data).code == OK { AcceptedMoves(c, data, SendData(c, data)); } else { RefusedMoves(c, data); }
  }

  lemma AcceptedMoves(c: Conn, data: seq<byte>, o: Outcome)
    requires Accepted(c, o, data) && Answer(c, Send(data)) == OK
    ensures Moves(c, Send(data), o.conn)
  {
    hide Emitted;
  }

  lemma RefusedMoves(c: Conn, data: seq<byte>)
    requires Answer(c, Send(data)) != OK
    ensures Moves(c, Send(data), c)
  {
  }

  lemma ArrivalMoves(c: Conn, f: Frame, refuse: bool)
    requires Inv(c) && Live(c) && Live(OnFrame(c, f, refuse).conn) && !HearsU(c, Arrive(f, refuse), SABM)
    ensures Moves(c, Arrive(f, refuse), OnFrame(c, f, refuse).conn)
  {
    hide Inv, Moves, OnFrame, Accepts, PduOf;
    if Accepts(c, f) { HeededMoves(c, f, refuse); } else { IgnoredMoves(c, f, refuse); }
  }

  lemma IgnoredMoves(c: Conn, f: Frame, refuse: bool)
    requires !Accepts(c, f)
    ensures OnFrame(c, f, refuse) == Quiet(c) && Moves(c, Arrive(f, refuse), c)
  {
    hide Accepts, PduOf;
  }

  lemma RefusedDialMoves(c: Conn, e: Event)
    requires Live(c) && e.Dial?
    ensures Moves(c, e, Step(c, e).conn)
  {
    hide Call;
  }

  /** V(A), V(S), V(R) and the queued payloads after every step that keeps an open session open. */
  lemma StepMoves(c: Conn, e: Event)
    requires Inv(c) && Live(c) && Live(Step(c, e).conn) && !HearsU(c, e, SABM)
    ensures Moves(c, e, Step(c, e).conn)
  {
    hide Inv, Moves, OnFrame, OnT1, OnT2, OnT3, SendData, Shutdown, SetBusy, Steady, Accepts, PduOf;
    match e
    case Arrive(f, refuse) => ArrivalMoves(c, f, refuse);
    case T1(late) => T1Steady(c, late); SteadyMoves(c, e, Step(c, e));
    case T2(late) => T2Steady(c, late); SteadyMoves(c, e, Step(c, e));
    case T3(late) => T3Steady(c, late); SteadyMoves(c, e, Step(c, e));
    case Hangup => HangupSteady(c); SteadyMoves(c, e, Step(c, e));
    case Busy(busy) => BusySteady(c, busy); SteadyMoves(c, e, Step(c, e));
    case Send(data) => SendMoves(c, data);
    case Dial(_, _) => RefusedDialMoves(c, e);
  }

  // ---- Beginnings and the rest of the calls -----------------------------------------------------------------------

  /** What `ax25_conn_init` leaves: no session, nothing armed, and a window outside 1..7 replaced by 4. */
  lemma InitFresh(local: Address, n2: nat, window: nat)
    ensures var c := Init(local, n2, window);
            && Fresh(c, c) && c.state == Disconnected && !c.t1 && !c.t2 && !c.t3
            && c.peer.local == local && !c.peer.remoteSet && c.peer.path == []
            && c.cfg.n2 == n2 && c.cfg.window == if window in {1, 2, 3, 4, 5, 6, 7} then window else 4
  {
  }

  /** A hang-up leaves only T1 running, and keeps the numbers for what still arrives. */
  lemma HangupRearms(c: Conn)
    ensures var d := Step(c, Hangup).conn;
            && d.tx == c.tx && d.vr == c.vr && d.cfg == c.cfg
            && (Closes(c, Hangup) ==> d.t1 && !d.t2 && !d.t3) && (!Closes(c, Hangup) ==> d == c)
  {
    hide UFrame;
  }

  /** A change of busy is remembered in every state and moves no number. */
  lemma BusyRemembered(c: Conn, busy: bool)
    ensures var d := Step(c, Busy(busy)).conn;
            d.localBusy == busy && d.tx == c.tx && d.vr == c.vr && d.state == c.state && d.t1 == c.t1 && d.t3 == c.t3
  {
    hide BusyTold;
    ToldOnly(c.(localBusy := busy));
  }

  lemma ToldOnly(c: Conn)
    ensures var d := BusyTold(c).conn; d == c.(ackPending := d.ackPending, t2 := d.t2)
  {
    hide SFrame;
  }
}

/** Flow control over runs and between two stations. */
module ConnBusy {
  import opened Ax25Types
  import opened TxWindow
  import opened ConnSpec
  import opened ConnInvariants
  import opened ConnEffects
  import opened ConnSession
  import opened ConnProgress
  import opened ConnSpeech
  import opened ConnAnswers
  import opened ConnTable
  import opened ConnFlow
  import opened ConnLife
  import opened ConnWindow

  // ---- A busy peer is sent nothing --------------------------------------------------------------------------------

  predicate IsRnr(f: Frame) { PduOf(f).Sup? && PduOf(f).skind == RNR }

  /** While nothing but RNR arrives, a station that is open thinks its peer busy, and a closed one does not open. */
  lemma SilencedStep(c: Conn, e: Event)
    requires (Live(c) ==> c.peerBusy) && (e.Arrive? ==> IsRnr(e.frame))
    ensures !SendsInfo(Step(c, e).out) && (Live(Step(c, e).conn) ==> Step(c, e).conn.peerBusy)
  {
    hide Step, Accepts, PduOf, Formed, FlagsOf, Hears;
    StepSpeaks(c, e);
    StepGoes(c, e);
    var o := Step(c, e);
    if Live(o.conn) {
      StepFlags(c, e);
      StaysSilenced(c, e, SendsInfo(o.out));
      FlagFields(o.conn);
      Unspoken(o.conn, PathUsed(c, e), o.out);
    } else if SendsInfo(o.out) {
      ShutSays(o.conn, PathUsed(c, e), o.out);
    }
  }

  lemma StaysSilenced(c: Conn, e: Event, sent: bool)
    requires c.peerBusy && (e.Arrive? ==> IsRnr(e.frame))
    ensures NextFlags(c, e, sent).peerBusy
  {
    hide Accepts, PduOf;
  }

  lemma Unspoken(d: Conn, path: seq<Address>, out: seq<Action>)
    requires Speaks(d, path, out) && d.peerBusy
    ensures !SendsInfo(out)
  {
    hide PduOf, IdentifyType;
  }

  lemma ShutSays(d: Conn, path: seq<Address>, out: seq<Action>)
    requires Speaks(d, path, out) && !Live(d)
    ensures !SendsInfo(out)
  {
    hide PduOf, IdentifyType;
  }

  lemma {:induction false} SilencedRun(c: Conn, es: seq<Event>)
    requires (Live(c) ==> c.peerBusy) && forall e :: e in es && e.Arrive? ==> IsRnr(e.frame)
    ensures !SendsInfo(Run(c, es).1)
    decreases |es|
  {
    hide Step, SendsInfo, IsRnr;
    if es == [] {
      NoInfos();
    } else {
      assert es[0] in es && forall e :: e in es[1..] ==> e in es;
      SilencedStep(c, es[0]);
      SilencedRun(Step(c, es[0]).conn, es[1..]);
      InfoAppend(Step(c, es[0]).out, Run(Step(c, es[0]).conn, es[1..]).1);
    }
  }

  /** A peer that has said it is busy is sent no I frame, whatever the application sends and whichever timers expire,
      until something other than an RNR arrives. */
  lemma BusyPeerGetsNothing(c: Conn, f: Frame, refuse: bool, es: seq<Event>)
    requires Live(c) && Accepts(c, f) && IsRnr(f) && GoodNr(c, PduOf(f).snr)
    requires forall e :: e in es && e.Arrive? ==> IsRnr(e.frame)
    ensures var o := OnFrame(c, f, refuse);
            Live(o.conn) && o.conn.peerBusy
            && forall a :: a in o.out + Run(o.conn, es).1 && a.Transmit? ==> !PduOf(a.frame).Info?
  {
    hide Step, Accepts, PduOf, GoodNr, FlagsOf, OnFrame, Sending, Hears;
    var e := Arrive(f, refuse);
    var o := Step(c, e);
    StepIsFrame(c, f, refuse);
    StepGoes(c, e);
    StepFlags(c, e);
    RnrFlags(c, e, SendsInfo(o.out));
    FlagFields(o.conn);
    StepSpeaks(c, e);
    Unspoken(o.conn, PathUsed(c, e), o.out);
    SilencedRun(o.conn, es);
    InfoAppend(o.out, Run(o.conn, es).1);
    NotSent(o.out + Run(o.conn, es).1);
  }

  lemma StepIsFrame(c: Conn, f: Frame, refuse: bool)
    ensures Step(c, Arrive(f, refuse)) == OnFrame(c, f, refuse)
  {
    hide OnFrame;
  }

  lemma RnrFlags(c: Conn, e: Event, sent: bool)
    requires Heard(c, e) && IsRnr(e.frame)
    ensures NextFlags(c, e, sent).peerBusy
  {
    hide Accepts, PduOf;
  }

  lemma NotSent(out: seq<Action>)
    requires !SendsInfo(out)
    ensures forall a :: a in out && a.Transmit? ==> !PduOf(a.frame).Info?
  {
    hide PduOf;
  }

  lemma BacklogWaits(w: Tx, k: nat)
    requires TxInv(w, k)
    ensures Backlog(w) <==> exists s: Seq8 :: s in Waiting(w)
  {
    if Backlog(w) {
      var s: Seq8 :| w.queue[s].inUse && !w.queue[s].transmitted;
      assert s in Waiting(w);
    }
    if s: Seq8 :| s in Waiting(w) { assert w.queue[s].inUse && !w.queue[s].transmitted; }
  }

  /** A peer that is ready again is sent all that waits, exactly if the session is CONNECTED, or the RR answers its
      poll; in TIMER_RECOVERY any other RR leaves waiting what the peer was never sent. */
  lemma ReadyPeerGetsAll(c: Conn, f: Frame, refuse: bool)
    requires Inv(c) && Live(c) && Accepts(c, f)
    requires var p := PduOf(f); p.Sup? && p.skind == RR && GoodNr(c, p.snr)
    ensures var o, p := OnFrame(c, f, refuse), PduOf(f);
            && Live(o.conn) && !o.conn.peerBusy
            && (!Backlog(o.conn.tx) <==>
                || c.state == Connected || (p.spf && !p.command)
                || forall s: Seq8 :: Between(p.snr, s, c.tx.vs) ==> c.tx.queue[s].transmitted)
  {
    hide Step, Accepts, PduOf, GoodNr, FlagsOf, OnFrame, Sending, Hears, Inv, TxInv, Waiting, Backlog, Pool, Due;
    var e := Arrive(f, refuse);
    var o := Step(c, e);
    StepIsFrame(c, f, refuse);
    StepGoes(c, e);
    StepFlags(c, e);
    RrFlags(c, e, SendsInfo(o.out));
    FlagFields(o.conn);
    StepKeeps(c, e);
    StepLeaves(c, e);
    InvWindow(o.conn);
    BacklogWaits(o.conn.tx, o.conn.cfg.window);
    RrPool(c, e);
  }

  /** What an RR leaves waiting. */
  lemma RrPool(c: Conn, e: Event)
    requires Heard(c, e) && Live(c) && PduOf(e.frame).Sup? && PduOf(e.frame).skind == RR
             && GoodNr(c, PduOf(e.frame).snr)
    ensures var p := PduOf(e.frame);
            (exists s: Seq8 :: s in Pool(c, e) - Due(c, e)) <==>
                c.state == TimerRecovery && (p.command || !p.spf)
                && exists s: Seq8 :: Between(p.snr, s, c.tx.vs) && !c.tx.queue[s].transmitted
  {
    hide Accepts, PduOf, GoodNr;
    if s: Seq8 :| Between(PduOf(e.frame).snr, s, c.tx.vs) && !c.tx.queue[s].transmitted {
      assert s in From(c, PduOf(e.frame).snr, false);
      if c.state == TimerRecovery && (PduOf(e.frame).command || !PduOf(e.frame).spf) {
        assert s in Pool(c, e) - Due(c, e);
      }
    }
  }

  lemma InvWindow(c: Conn)
    requires Inv(c)
    ensures TxInv(c.tx, c.cfg.window)
  {
    hide TxInv;
  }

  lemma RrFlags(c: Conn, e: Event, sent: bool)
    requires Heard(c, e) && PduOf(e.frame).Sup? && PduOf(e.frame).skind == RR
    ensures !NextFlags(c, e, sent).peerBusy
  {
    hide Accepts, PduOf;
  }

  // ---- A busy station takes nothing -------------------------------------------------------------------------------

  /** Anything but a change of busy and a U frame. */
  predicate Ordinary(e: Event) { !e.Busy? && (e.Arrive? ==> !PduOf(e.frame).Unnum?) }

  lemma DeafStep(c: Conn, e: Event, vr: Seq8)
    requires Inv(c) && Ordinary(e) && (Live(c) ==> c.localBusy && c.vr == vr)
    ensures var o := Step(c, e);
            Inv(o.conn) && Payloads(o.out) == [] && (Live(o.conn) ==> o.conn.localBusy && o.conn.vr == vr)
  {
    hide Step, Inv, Accepts, PduOf, FlagsOf, Hears, Payloads;
    StepKeeps(c, e);
    StepDelivers(c, e);
    StepGoes(c, e);
    var o := Step(c, e);
    if Live(o.conn) {
      StepMoves(c, e);
      StepFlags(c, e);
      StaysDeaf(c, e, SendsInfo(o.out));
      FlagFields(o.conn);
    }
  }

  lemma StaysDeaf(c: Conn, e: Event, sent: bool)
    requires c.localBusy && Ordinary(e)
    ensures NextFlags(c, e, sent).localBusy
  {
    hide Accepts, PduOf, Sending, SupFlags, InfoFlags, FlagsOf;
    FlagFields(c);
    match e
    case Arrive(f, _) =>
      match PduOf(f) {
        case Sup(s, nr, pf, command) => SupLocal(c, s, nr, pf && !command, FlagsOf(c), sent);
        case Info(ns, nr, pf, _) => InfoLocal(c, ns, nr, pf, FlagsOf(c), sent);
        case _ =>
      }
    case Send(_) => SendingLocal(FlagsOf(c), sent);
    case _ =>
  }

  lemma SendingLocal(f: Flags, sent: bool)
    ensures Sending(f, sent).localBusy == f.localBusy
  {
  }

  lemma SupLocal(c: Conn, s: SupKind, nr: Seq8, final: bool, f: Flags, sent: bool)
    ensures Sending(SupFlags(c, s, nr, final, f), sent).localBusy == f.localBusy
  {
    hide AckedTimers, SaidBusy;
    AckedLocal(c, nr, f);
  }

  lemma InfoLocal(c: Conn, ns: Seq8, nr: Seq8, pf: bool, f: Flags, sent: bool)
    ensures Sending(InfoFlags(c, ns, nr, pf, f), sent).localBusy == f.localBusy
  {
    hide AckedTimers;
    AckedLocal(c, nr, f);
  }

  lemma AckedLocal(c: Conn, nr: Seq8, f: Flags)
    ensures AckedTimers(c, nr, f).localBusy == f.localBusy
  {
  }

  /** A station that is busy delivers nothing and acknowledges nothing new, whatever S and I frames arrive, until it
      says that it is ready. */
  lemma {:induction false} BusyStationTakesNothing(c: Conn, es: seq<Event>, vr: Seq8)
    requires Inv(c) && (Live(c) ==> c.localBusy && c.vr == vr) && forall e :: e in es ==> Ordinary(e)
    ensures var (d, out) := Run(c, es); Payloads(out) == [] && (Live(d) ==> d.localBusy && d.vr == vr)
    decreases |es|
  {
    hide Step, Inv, Ordinary, Payloads;
    if es == [] {
      NoPayloads([]);
    } else {
      assert es[0] in es && forall e :: e in es[1..] ==> e in es;
      DeafStep(c, es[0], vr);
      BusyStationTakesNothing(Step(c, es[0]).conn, es[1..], vr);
      PayloadsAppend(Step(c, es[0]).out, Run(Step(c, es[0]).conn, es[1..]).1);
    }
  }

  // ---- Polls and gaps over runs -----------------------------------------------------------------------------------

  /** How many of the events poll this station. */
  function PollsHeard(c: Conn, es: seq<Event>): nat
    decreases |es|
  {
    if es == [] then 0 else Bit(Polled(c, es[0])) + PollsHeard(Step(c, es[0]).conn, es[1..])
  }

  /** Over any run every poll is answered, and nothing else is. */
  lemma {:induction false} PollsAnswered(c: Conn, es: seq<Event>)
    ensures Count(Run(c, es).1, Finals) == PollsHeard(c, es)
    decreases |es|
  {
    hide Step, Polled;
    if es != [] {
      StepSends(c, es[0], Finals);
      PollsAnswered(Step(c, es[0]).conn, es[1..]);
      CountAppend(Step(c, es[0]).out, Run(Step(c, es[0]).conn, es[1..]).1, Finals);
    }
  }

  /** No I frame in sequence is taken, and no U frame arrives. */
  ghost predicate Gap(c: Conn, es: seq<Event>)
    decreases |es|
  {
    es != [] ==>
      && !Takes(c, es[0]) && (es[0].Arrive? ==> !PduOf(es[0].frame).Unnum?)
      && Gap(Step(c, es[0]).conn, es[1..])
  }

  lemma GapStep(c: Conn, e: Event)
    requires !Takes(c, e) && (e.Arrive? ==> !PduOf(e.frame).Unnum?)
    ensures var n := Count(Step(c, e).out, Rejects);
            && n <= Bit(Live(c) && !c.rejSent)
            && (Live(Step(c, e).conn) ==> Live(c) && ((c.rejSent || n == 1) ==> Step(c, e).conn.rejSent))
  {
    hide Step, Accepts, PduOf, FlagsOf, Hears, Count, GoodNr, Sending;
    StepSends(c, e, Rejects);
    StepGoes(c, e);
    var o := Step(c, e);
    if Live(o.conn) {
      StepFlags(c, e);
      FlagFields(o.conn);
      if c.rejSent || Missed(c, e) { StaysRejected(c, e, SendsInfo(o.out)); }
    }
  }

  lemma StaysRejected(c: Conn, e: Event, sent: bool)
    requires Live(c) && !Misnumbered(c, e) && !Takes(c, e) && (c.rejSent || Missed(c, e))
    ensures NextFlags(c, e, sent).rejSent
  {
    hide Accepts, PduOf, GoodNr, Sending, SupFlags, InfoFlags, FlagsOf;
    var f := FlagsOf(c);
    FlagFields(c);
    match e
    case Arrive(g, _) =>
      match PduOf(g) {
        case Sup(s, nr, pf, command) => SupRejected(c, s, nr, pf && !command, f, sent);
        case Info(ns, nr, pf, _) => InfoRejected(c, ns, nr, pf, f, sent);
        case _ =>
      }
    case Send(_) => SendingRejected(f, sent);
    case _ =>
  }

  lemma SendingRejected(f: Flags, sent: bool)
    ensures Sending(f, sent).rejSent == f.rejSent
  {
  }

  lemma SupRejected(c: Conn, s: SupKind, nr: Seq8, final: bool, f: Flags, sent: bool)
    ensures Sending(SupFlags(c, s, nr, final, f), sent).rejSent == f.rejSent
  {
    hide AckedTimers, SaidBusy;
    AckedRejected(c, nr, f);
  }

  lemma InfoRejected(c: Conn, ns: Seq8, nr: Seq8, pf: bool, f: Flags, sent: bool)
    ensures Sending(InfoFlags(c, ns, nr, pf, f), sent).rejSent == (ns != c.vr || (c.localBusy && f.rejSent))
  {
    hide AckedTimers;
    AckedRejected(c, nr, f);
  }

  lemma AckedRejected(c: Conn, nr: Seq8, f: Flags)
    ensures AckedTimers(c, nr, f).rejSent == f.rejSent
  {
  }

  /** However many frames are lost or come out of sequence, a gap is rejected at most once until a frame closes it. */
  lemma {:induction false} OneRejectPerGap(c: Conn, es: seq<Event>)
    requires Gap(c, es)
    ensures Count(Run(c, es).1, Rejects) <= Bit(Live(c) && !c.rejSent)
    decreases |es|
  {
    hide Step, Takes, Count;
    if es == [] {
      CountNone([], Rejects);
    } else {
      GapStep(c, es[0]);
      OneRejectPerGap(Step(c, es[0]).conn, es[1..]);
      CountAppend(Step(c, es[0]).out, Run(Step(c, es[0]).conn, es[1..]).1, Rejects);
    }
  }

  // ---- Two stations -----------------------------------------------------------------------------------------------

  /** Both stations are in the session and nothing is on its way. */
  ghost predicate Quiescent(s: System) {
    SystemInv(s) && Live(s.p0.conn) && Live(s.p1.conn) && s.c01 == [] && s.c10 == []
  }

  lemma TellsChange(c: Conn, busy: bool)
    requires Live(c) && c.localBusy != busy
    ensures var o := Step(c, Busy(busy));
            && |o.out| == 1 && o.out[0].Transmit?
            && PduOf(o.out[0].frame) == Sup(if busy then RNR else RR, c.vr, false, false)
            && o.conn.localBusy == busy && Live(o.conn)
  {
    hide SFrame, PduOf;
    SFrameDecodes(c.(localBusy := busy), if busy then RNR else RR, false, false);
  }

  /** The first station changes its mind: its frame is on the way. */
  lemma ChangeSent(s: System, busy: bool)
    requires Quiescent(s) && s.p0.conn.localBusy != busy
    ensures var t := Turn(s, true, Local(Busy(busy)));
            && SystemInv(t) && t.p1 == s.p1 && t.c10 == [] && Live(t.p0.conn) && t.p0.conn.localBusy == busy
            && |t.c01| == 1 && PduOf(t.c01[0].frame) == Sup(if busy then RNR else RR, s.p0.conn.vr, false, false)
  {
    hide PartyInv, PairInv, ChannelInv, Step, PduOf, Tag;
    TellsChange(s.p0.conn, busy);
    TurnKeeps(s, true, Local(Busy(busy)));
    var o := Step(s.p0.conn, Busy(busy));
    var x := Apply(s.p0, Busy(busy), o);
    EmitOne(x, o.out);
    TagFrame(x, o.out[0].frame);
    assert s.c01 + Emit(x, o.out) == Emit(x, o.out);
  }

  lemma TagFrame(x: Party, f: Frame)
    ensures Tag(x, f).frame == f
  {
  }

  /** What the arrival of a change of busy does to a session. */
  lemma ChangeHeard(c: Conn, f: Frame, nr: Seq8, busy: bool)
    requires Inv(c) && Live(c) && Accepts(c, f) && IsValidNr(c.tx, nr)
    requires PduOf(f) == Sup(if busy then RNR else RR, nr, false, false)
    ensures var o := OnFrame(c, f, false);
            && Live(o.conn) && o.conn.peerBusy == busy
            && (busy ==> o.out == [])
            && (!busy ==> (!Backlog(o.conn.tx) <==>
                   c.state == Connected || forall s: Seq8 :: Between(nr, s, c.tx.vs) ==> c.tx.queue[s].transmitted))
  {
    hide Accepts, PduOf, OnFrame, Inv, GoodNr, IsValidNr, Backlog;
    GoodNrIs(c, nr);
    if busy { BusyPeerGetsNothing(c, f, false, []); RnrQuiet(c, f, nr); } else { ReadyPeerGetsAll(c, f, false); }
  }

  lemma RnrQuiet(c: Conn, f: Frame, nr: Seq8)
    requires Live(c) && Accepts(c, f) && IsValidNr(c.tx, nr) && PduOf(f) == Sup(RNR, nr, false, false)
    ensures OnFrame(c, f, false).out == []
  {
    hide Accepts, PduOf, IsValidNr, HandleNr, Recovered;
    var none: seq<Action> := [];
    assert none + none == none;
  }

  /** A station's change of busy reaches the other: after it says it is busy the other holds its data back, and once
      it says it is ready again the other has sent all that waited, exactly if that one is CONNECTED or had sent it
      all before. */
  lemma BusyReachesPeer(s: System, busy: bool)
    requires Quiescent(s) && s.p0.conn.localBusy != busy
    ensures var t := RunBoth(s, [(true, Local(Busy(busy))), (false, Receive(false))]);
            && SystemInv(t) && Live(t.p0.conn) && Live(t.p1.conn) && t.c01 == []
            && t.p0.conn.localBusy == busy && t.p1.conn.peerBusy == busy
            && (busy ==> t.c10 == [])
            && (!busy ==> (!Backlog(t.p1.conn.tx) <==>
                   || s.p1.conn.state == Connected
                   || forall k: Seq8 ::
                        Between(s.p0.conn.vr, k, s.p1.conn.tx.vs) ==> s.p1.conn.tx.queue[k].transmitted))
  {
    hide PartyInv, PairInv, ChannelInv, PduOf, Step, IsValidNr, Emit, Backlog, Turn;
    var acts := [(true, Local(Busy(busy))), (false, Receive(false))];
    ChangeSent(s, busy);
    var t := Turn(s, true, Local(Busy(busy)));
    RunTwo(s, acts);
    SecondTakes(t);
    var p := t.c01[0];
    Handled(t.p1, t.p0, p);
    ValidAt(t, p);
    PartyBounds(t.p1);
    RelayKeepsPdu(p.frame);
    StepIsFrame(t.p1.conn, Relay(p.frame), false);
    ChangeHeard(t.p1.conn, Relay(p.frame), s.p0.conn.vr, busy);
    EmitNothing(Apply(t.p1, Arrive(Relay(p.frame), false), Step(t.p1.conn, Arrive(Relay(p.frame), false))));
  }

  lemma EmitNothing(x: Party)
    ensures Emit(x, []) == []
  {
  }

  lemma RunTwo(s: System, acts: seq<(bool, Act)>)
    requires |acts| == 2
    ensures RunBoth(s, acts) == Turn(Turn(s, acts[0].0, acts[0].1), acts[1].0, acts[1].1)
  {
    hide Turn;
    var t := Turn(s, acts[0].0, acts[0].1);
    assert acts[1..] == [acts[1]];
    RunOne(t, acts[1].0, acts[1].1);
  }

  /** There and back: after a spell of busy both stations are in the session, and the other one, told twice, holds
      nothing back. */
  lemma BusySpell(s: System)
    requires Quiescent(s) && !s.p0.conn.localBusy && s.p1.conn.state == Connected
    ensures var told := [(true, Local(Busy(true))), (false, Receive(false))];
            var freed := [(true, Local(Busy(false))), (false, Receive(false))];
            var t := RunBoth(s, told + freed);
            && RunBoth(s, told).p1.conn.peerBusy
            && SystemInv(t) && Live(t.p0.conn) && Live(t.p1.conn) && !t.p1.conn.peerBusy && !t.p0.conn.localBusy
            && !Backlog(t.p1.conn.tx)
  {
    hide SystemInv, Turn, Backlog, RunBoth, Step;
    var told, freed := [(true, Local(Busy(true))), (false, Receive(false))],
        [(true, Local(Busy(false))), (false, Receive(false))];
    RunAppend(s, told, freed);
    BusyReachesPeer(s, true);
    ToldStays(s);
    BusyReachesPeer(RunBoth(s, told), false);
  }

  lemma ToldStays(s: System)
    requires Quiescent(s) && !s.p0.conn.localBusy && s.p1.conn.state == Connected
    ensures RunBoth(s, [(true, Local(Busy(true))), (false, Receive(false))]).p1.conn.state == Connected
  {
    hide PartyInv, PairInv, ChannelInv, PduOf, Step, IsValidNr, Emit, Turn, Hears;
    ChangeSent(s, true);
    var t := Turn(s, true, Local(Busy(true)));
    RunTwo(s, [(true, Local(Busy(true))), (false, Receive(false))]);
    SecondTakes(t);
    var p := t.c01[0];
    Handled(t.p1, t.p0, p);
    ValidAt(t, p);
    StepGoes(t.p1.conn, Arrive(Relay(p.frame), false));
    GoodNrIs(t.p1.conn, s.p0.conn.vr);
  }
}

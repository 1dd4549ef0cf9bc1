/** Progress: the retransmissions are complete, and from every state that a session can reach one exchange without loss
    delivers everything that was accepted and empties the window. */
module ConnProgress {
  import opened Ax25Types
  import opened TxWindow
  import opened ConnSpec
  import opened ConnInvariants
  import opened ConnEffects
  import opened ConnSession

  // ---- Go-back-N ------------------------------------------------------------------------------------

  /** All sequence numbers of [a, e). */
  function Span(a: Seq8, e: Seq8): (r: seq<Seq8>)
    ensures |r| == Off(a, e)
    decreases Off(a, e)
  {
    if a == e then [] else [a] + Span(Next(a), e)
  }

  lemma {:induction false} SpanAt(a: Seq8, e: Seq8, i: nat)
    requires i < |Span(a, e)|
    ensures Off(a, Span(a, e)[i]) == i
    decreases Off(a, e)
  {
    if i > 0 { SpanAt(Next(a), e, i - 1); }
  }

  lemma {:induction false} UnsentAll(q: Ring, a: Seq8, e: Seq8)
    requires forall s: Seq8 :: Between(a, s, e) ==> q[s].inUse && !q[s].transmitted
    ensures Unsent(q, a, e) == Span(a, e)
    decreases Off(a, e)
  {
    if a != e {
      assert Between(a, a, e);
      assert forall s: Seq8 :: Between(Next(a), s, e) ==> Between(a, s, e);
      UnsentAll(q, Next(a), e);
    }
  }

  /** Going back to V(A) puts every outstanding frame up for retransmission, in order. */
  lemma GoesBack(w: Tx, k: nat)
    requires TxInv(w, k)
    ensures var v := MarkUnsent(w, w.va); Unsent(v.queue, v.va, v.vs) == Span(w.va, w.vs)
  {
    MarkUnsentKeeps(w, w.va, k);
    UnsentAll(MarkUnsent(w, w.va).queue, w.va, w.vs);
  }

  /** The frames are exactly the outstanding ones from V(A) = N(R) on, each once and in order. */
  ghost predicate Resends(c: Conn, out: seq<Action>, nr: Seq8) {
    && |out| == Off(nr, c.tx.vs)
    && forall i :: 0 <= i < |out| ==> out[i].Transmit? && PduOf(out[i].frame) == Resent(c, Span(nr, c.tx.vs)[i])
  }

  /** The I frame for slot s as it is to be sent now. */
  function Resent(c: Conn, s: Seq8): Pdu { Info(s, c.vr, false, c.tx.queue[s].data) }

  /** What a send does when everything is untransmitted and the peer takes frames. */
  lemma SendsSpan(c: Conn)
    requires TxInv(c.tx, c.cfg.window) && !c.peerBusy && Unsent(c.tx.queue, c.tx.va, c.tx.vs) == Span(c.tx.va, c.tx.vs)
    ensures Resends(c, SendPending(c).1, c.tx.va)
    ensures c.tx.va != c.tx.vs ==> SendPending(c).0.t1
  {
    hide IFrame, PduOf, Unsent, MarkSent;
    var todo := Span(c.tx.va, c.tx.vs);
    forall i | 0 <= i < |todo|
      ensures PduOf(IFrame(c, todo[i], c.tx.queue[todo[i]].data).frame) ==
              Info(todo[i], c.vr, false, c.tx.queue[todo[i]].data)
    {
      SpanAt(c.tx.va, c.tx.vs, i);
      assert Between(c.tx.va, todo[i], c.tx.vs);
      IFrameDecodes(c, todo[i], c.tx.queue[todo[i]].data);
    }
  }

  /** REJ in CONNECTED: after the answer to a poll, if any, exactly the frames from N(R) on are sent again, under T1. */
  lemma RejectResendsAll(c: Conn, nr: Seq8, pf: bool, command: bool)
    requires Inv(c) && c.state == Connected && IsValidNr(c.tx, nr)
    ensures var o := ConnectedSup(c, REJ, nr, pf, command);
            var n := if pf && command then 1 else 0;
            n <= |o.out| && Resends(c, o.out[n..], nr) && (nr != c.tx.vs ==> o.conn.t1)
  {
    hide SendPending, Resends, IsValidNr, HandleNr, MarkUnsent, TxInv, Ack;
    HandleNrKeeps(c, nr);
    HandleNrAcks(c, nr);
    var c1 := HandleNr(c, nr);
    var d := c1.(peerBusy := false, tx := MarkUnsent(c1.tx, nr));
    Back(c1, d, nr);
    ResendsAs(c, d, nr, SendPending(d).1);
    var ack := AckIfPolled(c1.(peerBusy := false), pf, command);
    assert (ack + SendPending(d).1)[|ack|..] == SendPending(d).1;
  }

  lemma Back(c: Conn, d: Conn, nr: Seq8)
    requires TxInv(c.tx, c.cfg.window) && c.tx.va == nr
             && d == c.(peerBusy := false, tx := MarkUnsent(c.tx, nr), state := d.state,
                                                                   t1 := d.t1, t3 := d.t3, retry := d.retry)
    ensures Resends(d, SendPending(d).1, nr) && TxInv(d.tx, d.cfg.window) && SameData(c.tx, d.tx, nr, c.tx.vs)
            && d.tx.vs == c.tx.vs
    ensures nr != d.tx.vs ==> SendPending(d).0.t1
  {
    hide TxInv, SendPending, Resends, Unsent;
    MarkUnsentKeeps(c.tx, nr, c.cfg.window);
    MarkUnsentData(c.tx, nr);
    GoesBack(c.tx, c.cfg.window);
    MarkUnsentEnds(c.tx, nr);
    SendsSpan(d);
  }

  lemma MarkUnsentEnds(w: Tx, a: Seq8)
    ensures MarkUnsent(w, a).va == w.va && MarkUnsent(w, a).vs == w.vs
  {
  }

  lemma ResendsAs(c: Conn, d: Conn, nr: Seq8, out: seq<Action>)
    requires Resends(d, out, nr) && d.tx.vs == c.tx.vs && d.vr == c.vr && SameData(c.tx, d.tx, nr, c.tx.vs)
    ensures Resends(c, out, nr)
  {
    hide PduOf;
    forall i | 0 <= i < |out| ensures Between(nr, Span(nr, c.tx.vs)[i], c.tx.vs) { SpanAt(nr, c.tx.vs, i); }
  }

  /** The answer to a poll (RR with F) in TIMER_RECOVERY: everything the peer has not acknowledged is sent again, in
      order, and the session is CONNECTED with its retry count cleared. */
  lemma AnswerResendsAll(c: Conn, nr: Seq8)
    requires Inv(c) && c.state == TimerRecovery && IsValidNr(c.tx, nr)
    ensures var o := RecoverySup(c, RR, nr, true, false);
            && o.conn.state == Connected && o.conn.retry == 0 && o.conn.localBusy == c.localBusy
            && Resends(c, o.out, nr) && (nr != c.tx.vs ==> o.conn.t1)
  {
    hide SendPending, Resends, IsValidNr, HandleNr, MarkUnsent, TxInv;
    HandleNrKeeps(c, nr);
    HandleNrAcks(c, nr);
    var c1 := HandleNr(c, nr);
    HandleNrRecovering(c, nr);
    var d := c1.(peerBusy := false, tx := MarkUnsent(c1.tx, nr), state := Connected, t1 := false, t3 := false,
        retry := 0);
    Back(c1, d, nr);
    ResendsAs(c, d, nr, SendPending(d).1);
    SendPendingFlags(d);
    MarkUnsentEnds(c1.tx, nr);
    assert [] + SendPending(d).1 == SendPending(d).1;
    var none: seq<Action> := [];
    if nr == c.tx.vs {
      NothingToResend(c, nr);
      assert none + none == none;
    }
    assert Prepared(c, RR, nr, true) == c1.(peerBusy := false, state := Connected, t1 := false, retry := 0,
                                            tx := if nr != c.tx.vs then MarkUnsent(c1.tx, nr) else c1.tx);
  }

  lemma NothingToResend(c: Conn, nr: Seq8)
    requires nr == c.tx.vs
    ensures Resends(c, [], nr)
  {
  }

  lemma HandleNrRecovering(c: Conn, nr: Seq8)
    requires c.state == TimerRecovery && IsValidNr(c.tx, nr)
    ensures HandleNr(c, nr) == c.(tx := Retire(c.tx, nr)) && HandleNr(c, nr).tx.va == nr
            && HandleNr(c, nr).tx.vs == c.tx.vs
  {
    hide IsValidNr;
  }

  lemma SendPendingFlags(c: Conn)
    ensures var d := SendPending(c).0;
            d.state == c.state && d.retry == c.retry && d.localBusy == c.localBusy && d.vr == c.vr && d.cfg == c.cfg
  {
    hide Unsent, MarkSent;
  }

  // ---- One exchange, as seen by each side ---------------------------------------------------------------

  predicate HasBudget(c: Conn) { c.cfg.n2 >= 1 && (c.state == TimerRecovery ==> c.retry < c.cfg.n2) }

  /** T1 asks the peer: one RR command with the P bit. */
  lemma Polls(c: Conn, late: bool)
    requires Live(c) && HasBudget(c)
    ensures Asked(c, OnT1(c, late))
  {
    hide Asked, T1Expired;
    var d := c.(t1 := c.t1 && late);
    if c.state == Connected { PollsFresh(d); } else { PollsAgain(d); }
    AskedAs(c, d, T1Expired(d));
  }

  ghost predicate Asked(c: Conn, o: Outcome) {
    && |o.out| == 1 && o.out[0].Transmit? && PduOf(o.out[0].frame) == Sup(RR, c.vr, true, true)
    && o.conn.state == TimerRecovery && o.conn.localBusy == c.localBusy && o.conn.cfg == c.cfg && o.code == OK
  }

  lemma AskedAs(c: Conn, d: Conn, o: Outcome)
    requires Asked(d, o) && d == c.(t1 := d.t1)
    ensures Asked(c, o)
  {
    hide PduOf;
  }

  lemma PollsAgain(d: Conn)
    requires d.state == TimerRecovery && HasBudget(d)
    ensures Asked(d, T1Expired(d))
  {
    hide SFrame, PduOf;
    SFrameDecodes(d, RR, true, true);
  }

  lemma PollsFresh(d: Conn)
    requires d.state == Connected && HasBudget(d)
    ensures Asked(d, T1Expired(d))
  {
    hide SFrame, PduOf;
    SFrameDecodes(d.(state := TimerRecovery, retry := 0), RR, true, true);
  }

  /** A live station that is not busy answers a poll at once with its V(R), whatever else it sends after that. */
  lemma AnswersPoll(c: Conn, nr: Seq8)
    requires Inv(c) && Live(c) && !c.localBusy && IsValidNr(c.tx, nr)
    ensures var o := if c.state == Connected then ConnectedSup(c, RR, nr, true, true)
            else RecoverySup(c, RR, nr, true, true);
            && |o.out| >= 1 && o.out[0].Transmit? && PduOf(o.out[0].frame) == Sup(RR, c.vr, true, false)
            && !o.conn.localBusy && o.conn.cfg == c.cfg
  {
    hide IsValidNr, HandleNr, SendPending, TxInv, PduOf, SFrame, MarkUnsent;
    HandleNrAcks(c, nr);
    HandleNrKeeps(c, nr);
    var d := HandleNr(c, nr).(peerBusy := false);
    SendPendingFlags(d);
    SFrameDecodes(d, RR, true, false);
    SFrameDecodes(c, RR, true, false);
  }

  /** A live station that is not busy takes the next frame in sequence. */
  lemma TakesNext(c: Conn, nr: Seq8, payload: seq<byte>)
    requires Inv(c) && Live(c) && !c.localBusy && IsValidNr(c.tx, nr) && payload != []
    ensures var o := if c.state == Connected then ConnectedInfo(c, c.vr, nr, false, payload)
            else RecoveryInfo(c, c.vr, nr, false, payload);
            Payloads(o.out) == [payload] && !o.conn.localBusy && o.conn.cfg == c.cfg
  {
    hide Advances, IsValidNr, HandleNr, SendPending, TxInv;
    InfoEffect(c, c.vr, nr, false, payload);
    OnePayload(c, if c.state == Connected then ConnectedInfo(c, c.vr, nr, false, payload)
        else RecoveryInfo(c, c.vr, nr, false, payload), nr, payload);
    HandleNrKeeps(c, nr);
    HandleNrAcks(c, nr);
    var d := ConnSpec.Receive(HandleNr(c, nr).(peerBusy := false), c.vr, false, payload).0;
    SendPendingFlags(d);
    SendPendingFlags(d.(t3 := true));
  }

  lemma OnePayload(c: Conn, o: Outcome, nr: Seq8, payload: seq<byte>)
    requires Advances(c, o, nr, true, payload) && payload != []
    ensures Payloads(o.out) == [payload]
  {
  }

  // ---- Schedules --------------------------------------------------------------------------------------------

  /** Everything on its way to one station is lost. */
  lemma {:induction false} Clears(s: System, first: bool) returns (acts: seq<(bool, Act)>)
    ensures RunBoth(s, acts) == if first then s.(c10 := []) else s.(c01 := [])
    decreases if first then |s.c10| else |s.c01|
  {
    var ch := if first then s.c10 else s.c01;
    if ch == [] {
      acts := [];
    } else {
      var t := Turn(s, first, Lose(0));
      assert t == if first then s.(c10 := ch[1..]) else s.(c01 := ch[1..]) by {
        assert ch[..0] + ch[0 + 1..] == ch[1..];
      }
      var rest := Clears(t, first);
      acts := [(first, Lose(0))] + rest;
      RunOne(s, first, Lose(0));
      RunAppend(s, [(first, Lose(0))], rest);
    }
  }

  /** Both stations are in the session, the second takes data, and the first may still ask. */
  ghost predicate Ready(s: System) {
    && SystemInv(s) && Live(s.p0.conn) && Live(s.p1.conn) && !s.p1.conn.localBusy && HasBudget(s.p0.conn)
  }

  /** What is on its way to the second station is the next frames, in order, with nothing missing. */
  ghost predicate InOrder(s: System) {
    forall i :: 0 <= i < |s.c01| ==>
        PduOf(s.c01[i].frame).Info? && !PduOf(s.c01[i].frame).pf
        && s.c01[i].ns == |s.p1.delivered| + i
  }

  // ---- One exchange, as seen from above -------------------------------------------------------------------

  /** The second station's turn to take the packet at the head of its channel. */
  lemma SecondTakes(s: System)
    requires SystemInv(s) && s.c01 != [] && !PduOf(s.c01[0].frame).Unnum?
    ensures var p := s.c01[0];
            var e := Arrive(Relay(p.frame), false);
            var o := Step(s.p1.conn, e);
            var y := Apply(s.p1, e, o);
            && Turn(s, false, Receive(false)) == System(s.p0, y, s.c01[1..], s.c10 + Emit(y, o.out))
            && SystemInv(Turn(s, false, Receive(false)))
            && Arrived(s.p1, y, p) && y.conn == o.conn && PacketInv(p, s.p0, s.p1)
  {
    hide PartyInv, PairInv, Step, Apply, Emit, Arrived;
    RelayKeepsPdu(s.c01[0].frame);
    hide PduOf;
    TurnKeeps(s, false, Receive(false));
    assert PacketInv(s.c01[0], s.p0, s.p1);
    ArrivingParty(s.p1, s.p0, s.c01[0], false);
  }

  /** The filters let a packet of the session through, so the handler of the state decides. */
  lemma Handled(x: Party, y: Party, p: Packet)
    requires PacketInv(p, y, x) && Live(x.conn) && Linked(y, x) && !PduOf(p.frame).Unnum?
    ensures Accepts(x.conn, Relay(p.frame))
    ensures Step(x.conn, Arrive(Relay(p.frame), false)) == HandleLive(x.conn, Relay(p.frame))
    ensures PduOf(Relay(p.frame)) == PduOf(p.frame)
  {
    hide PduOf, HandleLive;
    RelayKeepsPdu(p.frame);
    TypeOfPdu(p.frame);
  }

  lemma Asks(s: System)
    requires Ready(s) && s.c01 == [] && s.c10 == []
    ensures var t := Turn(s, true, Local(T1(false)));
            && SystemInv(t) && t.p1 == s.p1 && t.c10 == []
            && t.p0.accepted == s.p0.accepted && t.p0.conn.state == TimerRecovery && t.p0.conn.cfg == s.p0.conn.cfg
            && |t.c01| == 1 && PduOf(t.c01[0].frame) == Sup(RR, s.p0.conn.vr, true, true)
  {
    hide PartyInv, PairInv, ChannelInv, OnT1, PduOf;
    Polls(s.p0.conn, false);
    TurnKeeps(s, true, Local(T1(false)));
    var o := Step(s.p0.conn, T1(false));
    EmitOne(Apply(s.p0, T1(false), o), o.out);
    assert s.p0.accepted + [] == s.p0.accepted;
    assert s.c01 + Emit(Apply(s.p0, T1(false), o), o.out) == Emit(Apply(s.p0, T1(false), o), o.out);
  }

  lemma Answers(s: System)
    requires SystemInv(s) && Live(s.p1.conn) && !s.p1.conn.localBusy && s.c10 == []
    requires |s.c01| == 1 && PduOf(s.c01[0].frame).Sup?
             && PduOf(s.c01[0].frame) == Sup(RR, PduOf(s.c01[0].frame).snr, true, true)
    ensures var t := Turn(s, false, Receive(false));
            && SystemInv(t) && t.p0 == s.p0 && t.c01 == [] && t.p1.delivered == s.p1.delivered
            && Live(t.p1.conn) && !t.p1.conn.localBusy
            && |t.c10| >= 1 && t.c10[0].nr == |t.p1.delivered|
            && PduOf(t.c10[0].frame) == Sup(RR, s.p1.conn.vr, true, false)
  {
    hide PartyInv, PairInv, ChannelInv, PduOf, Step, IsValidNr, ConnectedSup, RecoverySup;
    SecondTakes(s);
    var p := s.c01[0];
    Handled(s.p1, s.p0, p);
    ValidAt(s, p);
    PartyBounds(s.p1);
    AnswersPoll(s.p1.conn, PduOf(p.frame).snr);
    var o := HandleLive(s.p1.conn, Relay(p.frame));
    var y := Apply(s.p1, Arrive(Relay(p.frame), false), o);
    EmitOne(y, o.out);
    assert s.c10 + Emit(y, o.out) == Emit(y, o.out);
  }

  /** The N(R) of a packet for the second station is valid there. */
  lemma ValidAt(s: System, p: Packet)
    requires SystemInv(s) && Live(s.p1.conn) && PacketInv(p, s.p0, s.p1) && !PduOf(p.frame).Unnum?
    ensures PduOf(p.frame).Info? || PduOf(p.frame).Sup?
    ensures NrOf(PduOf(p.frame)) == p.nr % 8 && IsValidNr(s.p1.conn.tx, p.nr % 8)
  {
    hide PartyInv, ChannelInv, PduOf, IsValidNr, Off;
    TrueAckIsValid(s.p1, s.p0, p.nr);
  }

  lemma Retransmits(s: System)
    requires SystemInv(s) && s.p0.conn.state == TimerRecovery && Live(s.p1.conn) && s.c01 == [] && s.c10 != []
    requires s.c10[0].nr == |s.p1.delivered| && PduOf(s.c10[0].frame).Sup?
    requires PduOf(s.c10[0].frame) == Sup(RR, PduOf(s.c10[0].frame).snr, true, false)
    ensures var t := Turn(s, true, Receive(false));
            && SystemInv(t) && t.p1 == s.p1 && t.p0.accepted == s.p0.accepted && t.p0.acked == |s.p1.delivered|
            && t.p0.conn.state == Connected && t.p0.conn.cfg == s.p0.conn.cfg
            && InOrder(t) && |t.c01| == |s.p0.accepted| - |s.p1.delivered|
  {
    hide PartyInv, PairInv, ChannelInv, PduOf, Step, IsValidNr, RecoverySup, Resends, Off, Emit;
    var r := Swap(s);
    assert SystemInv(r);
    assert r.c01 == s.c10 && Swap(Turn(r, false, Receive(false))) == Turn(s, true, Receive(false));
    SecondTakes(r);
    var p := s.c10[0];
    Handled(s.p0, s.p1, p);
    ValidAt(r, p);
    var x := s.p0;
    var nr := PduOf(p.frame).snr;
    PartyBounds(x);
    AnswerResendsAll(x.conn, nr);
    var o := HandleLive(x.conn, Relay(p.frame));
    assert o == RecoverySup(x.conn, RR, nr, true, false);
    RecoveryKeepsSetup(x.conn, Relay(p.frame));
    var x' := Apply(x, Arrive(Relay(p.frame), false), o);
    PartyCounts(x, s.p1, p.nr);
    PartyVa(x');
    NextFrames(x, x', o.out, nr, p.nr);
    assert s.c01 + Emit(x', o.out) == Emit(x', o.out);
    var t := Turn(s, true, Receive(false));
    assert t.p0 == x' && t.p1 == s.p1 && t.c01 == Emit(x', o.out);
    assert |o.out| == Off(nr, x.conn.tx.vs) by { ResendsLength(x.conn, o.out, nr); }
  }

  lemma ResendsLength(c: Conn, out: seq<Action>, nr: Seq8)
    requires Resends(c, out, nr)
    ensures |out| == Off(nr, c.tx.vs)
  {
    hide PduOf;
  }

  lemma RecoveryKeepsSetup(c: Conn, f: Frame)
    requires Inv(c) && Live(c)
    ensures HandleLive(c, f).conn.cfg == c.cfg
  {
    hide Inv, HandleLive;
    FrameKeeps(c, f, false);
  }

  lemma PartyCounts(x: Party, y: Party, nr: nat)
    requires PartyInv(x) && PairInv(x, y) && Live(x.conn) && x.acked <= nr == |y.delivered|
    ensures Off(nr % 8, x.conn.tx.vs) == |x.accepted| - nr && nr <= |x.accepted|
  {
    hide Inv;
    OffOfCounts(nr, |x.accepted|);
  }

  lemma PartyVa(x: Party)
    requires PartyInv(x) && Live(x.conn)
    ensures x.conn.tx.va == x.acked % 8
  {
    hide Inv;
  }

  /** The resent frames carry the unbounded numbers from the acknowledged count on. */
  lemma NextFrames(x: Party, x': Party, out: seq<Action>, nr: Seq8, acked: nat)
    requires Resends(x.conn, out, nr) && x'.acked == acked && x'.conn.tx.va == nr
    ensures |Emit(x', out)| == |out|
    ensures forall i :: 0 <= i < |out| ==>
              var p := Emit(x', out)[i]; PduOf(p.frame).Info? && !PduOf(p.frame).pf && p.ns == acked + i
  {
    EmitAll(x', out);
    forall i | 0 <= i < |out|
      ensures var q := Tag(x', out[i].frame); PduOf(q.frame).Info? && !PduOf(q.frame).pf && q.ns == acked + i
    {
      SpanAt(nr, x.conn.tx.vs, i);
      InfoNumber(out[i].frame);
    }
  }

  lemma InfoNumber(f: Frame)
    requires PduOf(f).Info?
    ensures ExtractNs(f.control) == PduOf(f).ns
  {
  }

  /** The next frame in sequence arrives and is taken. */
  lemma Delivers(s: System)
    requires SystemInv(s) && Live(s.p1.conn) && !s.p1.conn.localBusy && InOrder(s) && s.c01 != []
    ensures var t := Turn(s, false, Receive(false));
            && SystemInv(t) && t.p0 == s.p0 && Live(t.p1.conn) && !t.p1.conn.localBusy
            && |t.p1.delivered| == |s.p1.delivered| + 1 && t.c01 == s.c01[1..] && InOrder(t)
  {
    hide PartyInv, PairInv, ChannelInv, PduOf, Step, IsValidNr, ConnectedInfo, RecoveryInfo, Emit;
    SecondTakes(s);
    var p, y := s.c01[0], s.p1;
    Handled(y, s.p0, p);
    ValidAt(s, p);
    PartyBounds(y);
    PayloadReal(s.p0, p.ns);
    VrCounts(y);
    var pdu := PduOf(p.frame);
    TakesNext(y.conn, pdu.nr, pdu.payload);
    var o := HandleLive(y.conn, Relay(p.frame));
    assert pdu == Info(y.conn.vr, pdu.nr, false, pdu.payload);
    forall i | 0 <= i < |s.c01[1..]| ensures s.c01[1..][i] == s.c01[i + 1] {}
  }

  lemma VrCounts(x: Party)
    requires PartyInv(x) && Live(x.conn)
    ensures x.conn.vr == |x.delivered| % 8
  {
    hide Inv;
  }

  lemma {:induction false} DeliversAll(s: System) returns (acts: seq<(bool, Act)>)
    requires SystemInv(s) && Live(s.p1.conn) && !s.p1.conn.localBusy && InOrder(s)
    ensures var t := RunBoth(s, acts);
            && SystemInv(t) && t.p0 == s.p0 && Live(t.p1.conn) && !t.p1.conn.localBusy
            && |t.p1.delivered| == |s.p1.delivered| + |s.c01| && t.c01 == []
    decreases |s.c01|
  {
    hide SystemInv, InOrder, Turn;
    if s.c01 == [] {
      acts := [];
    } else {
      Delivers(s);
      var t := Turn(s, false, Receive(false));
      var rest := DeliversAll(t);
      acts := [(false, Receive(false))] + rest;
      RunOne(s, false, Receive(false));
      RunAppend(s, [(false, Receive(false))], rest);
    }
  }

  lemma Emptied(s: System)
    requires SystemInv(s)
    ensures SystemInv(s.(c10 := [])) && SystemInv(s.(c01 := []))
  {
    hide PartyInv, PairInv, Linked;
  }

  /** Ask, answer, retransmit: afterwards the first station knows what the second has, and the rest is on its way, in
      order. */
  lemma Round(s: System) returns (acts: seq<(bool, Act)>)
    requires Ready(s)
    ensures var t := RunBoth(s, acts);
            && Ready(t) && t.p0.accepted == s.p0.accepted && t.p1.delivered == s.p1.delivered
            && t.p0.acked == |s.p1.delivered| && InOrder(t) && |t.c01| == |s.p0.accepted| - |s.p1.delivered|
  {
    hide SystemInv, InOrder, Turn, PduOf, RunBoth;
    var a := Clears(s, true);
    var s1 := RunBoth(s, a);
    var b := Clears(s1, false);
    var s2 := RunBoth(s1, b);
    Emptied(s);
    Emptied(s1);
    Asks(s2);
    var s3 := Turn(s2, true, Local(T1(false)));
    Answers(s3);
    var s4 := Turn(s3, false, Receive(false));
    Retransmits(s4);
    var ask, answer, resend := [(true, Local(T1(false)))], [(false, Receive(false))], [(true, Receive(false))];
    RunOne(s2, true, Local(T1(false)));
    RunOne(s3, false, Receive(false));
    RunOne(s4, true, Receive(false));
    RunAppend(s, a, b);
    RunAppend(s, a + b, ask);
    RunAppend(s, a + b + ask, answer);
    RunAppend(s, a + b + ask + answer, resend);
    acts := a + b + ask + answer + resend;
  }

  /** The link is never stuck: from every state the two stations can reach in a live session, as long as the receiver is
      not busy and the sender's retry budget is not used up, some continuation delivers everything that was accepted,
      acknowledges it, and leaves the window empty.  (For the other direction, swap the stations.) */
  lemma CanAlwaysDrain(s: System)
    requires Ready(s)
    ensures exists acts :: var t := RunBoth(s, acts);
              && SystemInv(t) && t.p0.accepted == s.p0.accepted && t.p1.delivered == s.p0.accepted
              && t.p0.acked == |s.p0.accepted| && Live(t.p0.conn) && Outstanding(t.p0.conn.tx) == 0
  {
    hide InOrder, Turn, PartyInv, ChannelInv;
    var a := Round(s);
    var s1 := RunBoth(s, a);
    var b := DeliversAll(s1);
    var s2 := RunBoth(s1, b);
    var c := Round(s2);
    var s3 := RunBoth(s2, c);
    RunAppend(s, a, b);
    RunAppend(s, a + b, c);
    PartyBounds(s3.p0);
    assert RunBoth(s, a + b + c) == s3;
  }
}

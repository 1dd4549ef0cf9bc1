/** What one step of an open session does to the sequence variables, to the queued payloads, to the
    application and to the wire: the summary on which the two-party argument rests. */
module ConnEffects {
  import opened Ax25Types
  import opened TxWindow
  import opened ConnSpec
  import opened ConnInvariants

  /** The payloads handed to on_data, in order. */
  function Payloads(out: seq<Action>): seq<seq<byte>> {
    if out == [] then []
    else (if out[0].Data? then [out[0].payload] else []) + Payloads(out[1..])
  }

  // ---- Frames decode to what was built ---------------------------------------------------------

  lemma SFrameDecodes(c: Conn, k: SupKind, pf: bool, command: bool)
    requires !k.OtherS?
    ensures PduOf(SFrame(c, k, pf, command).frame) == Sup(k, c.vr, pf, command)
  {
    hide SControl, SupervisoryBits, ExtractNr, HasPf;
    SControlFields(match k case RR => CTRL_RR case RNR => CTRL_RNR case REJ => CTRL_REJ, c.vr, pf);
  }

  lemma UFrameDecodes(c: Conn, k: UnnumKind, pf: bool)
    requires !k.OtherU? && !k.FRMR?
    ensures PduOf(UFrame(c, k, pf).frame) == Unnum(k, pf)
  {
    hide UnnumControl, UnnumKindOf, HasPf;
    UControlFields(k, pf);
  }

  lemma IFrameDecodes(c: Conn, ns: Seq8, data: seq<byte>)
    requires 0 < |data| <= MAX_INFO_LEN
    ensures PduOf(IFrame(c, ns, data).frame) == Info(ns, c.vr, false, data)
  {
    hide IControl, ExtractNs, ExtractNr, HasPf;
    IControlFields(ns, c.vr, false);
  }

  // ---- The summary --------------------------------------------------------------------------------

  /** A frame sent by a section that ends in state d: I and S frames carry d's V(R), an I frame carries the
      payload queued under its number, and of the U frames a station that is not dialling sends UA, DM and DISC only. */
  ghost predicate Emitted(d: Conn, f: Frame) {
    && f.destination == d.peer.remote && f.source == d.peer.local
    && match PduOf(f)
       case Info(ns, nr, _, payload) => Live(d) && nr == d.vr && Between(d.tx.va, ns, d.tx.vs)
           && payload == d.tx.queue[ns].data
       case Sup(k, nr, _, _) => Live(d) && nr == d.vr && k != OtherS
       case Unnum(k, _) => k == UA || k == DM || k == DISC || (k == SABM && d.state == AwaitingConnection)
       case NoPdu => false
  }

  ghost predicate Emits(d: Conn, out: seq<Action>) {
    forall a :: a in out && a.Transmit? ==> Emitted(d, a.frame)
  }

  predicate SamePeers(c: Conn, d: Conn) { c.peer.remote == d.peer.remote && c.peer.local == d.peer.local }

  /** The queued payloads of [a, e) are the same in both rings. */
  ghost predicate SameData(v: Tx, w: Tx, a: Seq8, e: Seq8) {
    forall s: Seq8 :: Between(a, s, e) ==> v.queue[s].data == w.queue[s].data
  }

  /** The step leaves the window and V(R) alone. */
  ghost predicate Steady(c: Conn, o: Outcome) {
    && Emits(o.conn, o.out) && SamePeers(c, o.conn) && Payloads(o.out) == []
    && (o.conn.state.AwaitingConnection? ==> c.state.AwaitingConnection?)
    && (Live(o.conn) ==> Live(c) && o.conn.tx.va == c.tx.va && o.conn.tx.vs == c.tx.vs && o.conn.vr == c.vr
                         && SameData(c.tx, o.conn.tx, c.tx.va, c.tx.vs))
  }

  /** The step acknowledges everything before nr and, if `consumed`, consumes one payload. */
  ghost predicate Advances(c: Conn, o: Outcome, nr: Seq8, consumed: bool, payload: seq<byte>) {
    && Emits(o.conn, o.out) && SamePeers(c, o.conn) && Live(o.conn)
    && o.conn.tx.va == nr && o.conn.tx.vs == c.tx.vs && SameData(c.tx, o.conn.tx, nr, c.tx.vs)
    && o.conn.vr == (if consumed then Next(c.vr) else c.vr)
    && Payloads(o.out) == (if consumed && payload != [] then [payload] else [])
  }

  /** The step accepts one payload for transmission. */
  ghost predicate Accepted(c: Conn, o: Outcome, data: seq<byte>) {
    && Emits(o.conn, o.out) && SamePeers(c, o.conn) && Payloads(o.out) == [] && Live(c) && Live(o.conn)
    && o.conn.tx.va == c.tx.va && o.conn.tx.vs == Next(c.tx.vs) && o.conn.vr == c.vr
    && Outstanding(c.tx) < c.cfg.window && 0 < |data| <= MAX_INFO_LEN
    && SameData(c.tx, o.conn.tx, c.tx.va, c.tx.vs) && o.conn.tx.queue[c.tx.vs].data == data
  }

  // ---- Helpers ------------------------------------------------------------------------------------

  lemma PayloadsAppend(a: seq<Action>, b: seq<Action>)
    ensures Payloads(a + b) == Payloads(a) + Payloads(b)
  {
    if a == [] { assert a + b == b; }
    else { assert (a + b)[1..] == a[1..] + b; PayloadsAppend(a[1..], b); }
  }

  lemma NoPayloads(out: seq<Action>)
    requires forall a :: a in out ==> !a.Data?
    ensures Payloads(out) == []
  {
  }

  /** What a retransmission puts on the wire. */
  lemma SendPendingEmits(c: Conn)
    requires TxInv(c.tx, c.cfg.window) && Live(c)
    ensures var r := SendPending(c);
            Emits(r.0, r.1) && Payloads(r.1) == [] && SamePeers(c, r.0) && r.0.vr == c.vr && r.0.state == c.state
            && r.0.tx.va == c.tx.va && r.0.tx.vs == c.tx.vs && SameData(c.tx, r.0.tx, c.tx.va, c.tx.vs)
            && (forall a :: a in r.1 ==> a.Transmit?)
  {
    hide Emitted, IFrames, Sent, MarkSent, SameData;
    var (d, out) := SendPending(c);
    MarkSentData(c.tx);
    IFramesEmitted(c, d);
    NoPayloads(out);
  }

  lemma MarkSentData(w: Tx)
    ensures MarkSent(w).va == w.va && MarkSent(w).vs == w.vs && SameData(w, MarkSent(w), w.va, w.vs)
            && SameData(w, w, w.va, w.vs)
  {
  }

  lemma IFramesEmitted(c: Conn, d: Conn)
    requires TxInv(c.tx, c.cfg.window) && Live(d) && d.vr == c.vr && SamePeers(c, d)
    requires d.tx.va == c.tx.va && d.tx.vs == c.tx.vs && SameData(c.tx, d.tx, c.tx.va, c.tx.vs)
    ensures forall a :: a in IFrames(c, Sent(c)) ==> a.Transmit? && Emitted(d, a.frame)
  {
    hide PduOf, IControl, Unsent;
    var out := IFrames(c, Sent(c));
    UnsentMembers(c.tx.queue, c.tx.va, c.tx.vs);
    forall a | a in out ensures a.Transmit? && Emitted(d, a.frame) {
      var i :| 0 <= i < |out| && a == out[i];
      var s := Sent(c)[i];
      assert s in Unsent(c.tx.queue, c.tx.va, c.tx.vs);
      IFrameDecodes(c, s, c.tx.queue[s].data);
    }
  }

  lemma SFrameEmits(c: Conn, d: Conn, k: SupKind, pf: bool, command: bool)
    requires Live(d) && d.vr == c.vr && SamePeers(c, d) && !k.OtherS?
    ensures Emitted(d, SFrame(c, k, pf, command).frame)
  {
    hide PduOf, SControl;
    SFrameDecodes(c, k, pf, command);
  }

  lemma AckEmits(c: Conn, d: Conn, pf: bool, command: bool)
    requires Live(d) && d.vr == c.vr && SamePeers(c, d)
    ensures Emitted(d, Ack(c, pf, command).frame)
  {
    hide Emitted, SFrame;
    SFrameEmits(c, d, RR, pf, command);
    SFrameEmits(c, d, RNR, pf, command);
  }

  lemma UFrameEmits(c: Conn, d: Conn, k: UnnumKind, pf: bool)
    requires SamePeers(c, d) && (k == UA || k == DM || k == DISC || (k == SABM && d.state == AwaitingConnection))
    ensures Emitted(d, UFrame(c, k, pf).frame)
  {
    hide PduOf, UnnumControl;
    UFrameDecodes(c, k, pf);
  }

  lemma RetireData(w: Tx, nr: Seq8, k: nat)
    requires TxInv(w, k) && IsValidNr(w, nr)
    ensures SameData(w, Retire(w, nr), nr, w.vs)
  {
    hide TxInv, InFlight, Backlog;
    RetireKeeps(w, nr, k);
  }

  lemma MarkUnsentData(w: Tx, a: Seq8)
    ensures var v := MarkUnsent(w, a); v.va == w.va && v.vs == w.vs && SameData(w, v, w.va, w.vs)
  {
  }

  lemma SameDataTrans(u: Tx, v: Tx, w: Tx, a: Seq8, e: Seq8)
    requires SameData(u, v, a, e) && SameData(v, w, a, e)
    ensures SameData(u, w, a, e)
  {
  }

  // ---- Leaving the session, and frames that do not move the window -----------------------------------

  lemma LeaveSteady(c: Conn, k: UnnumKind, pf: bool, fault: Fault)
    requires k == UA || k == DM
    ensures Steady(c, Leave(c, []))
    ensures Steady(c, Leave(c, [UFrame(c, k, pf)]))
    ensures Steady(c, Leave(c, [Fail(fault, c.retry)]))
    ensures Steady(c, Leave(c, [Fail(fault, c.retry), UFrame(c, k, pf)]))
  {
    hide Emitted, UFrame, Clear, SameData;
    UFrameEmits(c, EnterDisconnected(c).0, k, pf);
    NoPayloads(Leave(c, []).out);
    NoPayloads(Leave(c, [UFrame(c, k, pf)]).out);
    NoPayloads(Leave(c, [Fail(fault, c.retry)]).out);
    NoPayloads(Leave(c, [Fail(fault, c.retry), UFrame(c, k, pf)]).out);
  }

  lemma ReplySteady(c: Conn, d: Conn, a: Action)
    requires d.state.AwaitingConnection? ==> c.state.AwaitingConnection?
    requires SamePeers(c, d) && (Live(d) ==>
             Live(c) && d.tx.va == c.tx.va && d.tx.vs == c.tx.vs && d.vr == c.vr
             && SameData(c.tx, d.tx, c.tx.va, c.tx.vs))
    requires a.Transmit? && Emitted(d, a.frame)
    ensures Steady(c, Outcome(d, [a], OK, false)) && Steady(c, Outcome(d, [], OK, false))
  {
    hide Emitted;
    NoPayloads([a]);
  }

  lemma QuietSteady(c: Conn)
    ensures Steady(c, Quiet(c))
  {
  }

  /** DM and DISC in any state, and UA outside a dialling station. */
  lemma UnnumSteady(c: Conn, f: Frame, refuse: bool)
    requires PduOf(f).Unnum? && (PduOf(f).ukind == UA || PduOf(f).ukind == DM || PduOf(f).ukind == DISC)
    requires PduOf(f).ukind == UA ==> !c.state.AwaitingConnection?
    ensures Steady(c, Dispatch(c, f, refuse))
  {
    hide PduOf, Steady, Leave, UFrame, Emitted;
    var k, pf := PduOf(f).ukind, PduOf(f).upf;
    QuietSteady(c);
    LeaveSteady(c, UA, pf, DmReceived);
    LeaveSteady(c, UA, pf, Refused);
    UFrameEmits(c, c, DM, pf);
    ReplySteady(c, c, UFrame(c, DM, pf));
  }

  /** Any frame that is not a U frame leaves a closed end as it is. */
  lemma ClosedSteady(c: Conn, f: Frame, refuse: bool)
    requires !PduOf(f).Unnum? && !Live(c)
    ensures Dispatch(c, f, refuse) == Quiet(c) && Steady(c, Dispatch(c, f, refuse))
  {
    hide PduOf;
    QuietSteady(c);
  }

  // ---- S and I frames ---------------------------------------------------------------------------------

  ghost predicate Acked(c: Conn, d: Conn, nr: Seq8) {
    && TxInv(d.tx, c.cfg.window) && d.cfg == c.cfg && Live(d) && SamePeers(c, d) && d.vr == c.vr && d.tx.va == nr
       && d.tx.vs == c.tx.vs
    && SameData(c.tx, d.tx, nr, c.tx.vs)
  }

  lemma RetireEnds(w: Tx, nr: Seq8)
    ensures Retire(w, nr).va == nr && Retire(w, nr).vs == w.vs
  {
  }

  lemma HandleNrAcks(c: Conn, nr: Seq8)
    requires Inv(c) && Live(c) && IsValidNr(c.tx, nr)
    ensures Acked(c, HandleNr(c, nr), nr)
  {
    hide TxInv, InFlight, Backlog, SameData, Retire;
    HandleNrKeeps(c, nr);
    RetireData(c.tx, nr, c.cfg.window);
    RetireEnds(c.tx, nr);
  }

  lemma MarkUnsentAcks(c: Conn, d: Conn, nr: Seq8, a: Seq8)
    requires Acked(c, d, nr)
    ensures Acked(c, d.(tx := MarkUnsent(d.tx, a)), nr)
  {
    hide TxInv, InFlight, SameData, MarkUnsent;
    MarkUnsentKeeps(d.tx, a, c.cfg.window);
    MarkUnsentData(d.tx, a);
    SameDataTrans(c.tx, d.tx, MarkUnsent(d.tx, a), nr, c.tx.vs);
  }

  /** Closing a section: an optional acknowledgement and then an optional retransmission. */
  lemma SendsAcks(c: Conn, d: Conn, nr: Seq8, ack: seq<Action>)
    requires Acked(c, d, nr)
    requires forall a :: a in ack ==> a.Transmit? && Emitted(d, a.frame)
    ensures var (e, frames) := SendPending(d);
            Advances(c, Outcome(e, ack + frames, OK, false), nr, false, [])
            && Advances(c, Outcome(d, ack, OK, false), nr, false, [])
  {
    hide TxInv, SameData, SendPending;
    SendPendingEmits(d);
    var (e, frames) := SendPending(d);
    SameDataTrans(c.tx, d.tx, e.tx, nr, c.tx.vs);
    forall a | a in ack + frames
      ensures a.Transmit? && Emitted(e, a.frame)
    {
      if a in ack { EmittedLater(d, e, a.frame); }
    }
    NoPayloads(ack + frames);
    NoPayloads(ack);
  }

  lemma EmittedLater(d: Conn, e: Conn, f: Frame)
    requires Emitted(d, f) && SamePeers(d, e) && d.vr == e.vr && Live(d) && Live(e)
    requires d.tx.va == e.tx.va && d.tx.vs == e.tx.vs && SameData(d.tx, e.tx, d.tx.va, d.tx.vs)
    ensures Emitted(e, f)
  {
    hide PduOf;
  }

  lemma PolledAck(c: Conn, d: Conn, nr: Seq8, pf: bool, command: bool)
    requires Acked(c, d, nr)
    ensures forall a :: a in AckIfPolled(d, pf, command) ==> a.Transmit? && Emitted(d, a.frame)
  {
    hide Emitted, Ack;
    AckEmits(d, d, true, false);
  }

  lemma ConnectedSupEffect(c: Conn, k: SupKind, nr: Seq8, pf: bool, command: bool)
    requires Inv(c) && c.state == Connected && IsValidNr(c.tx, nr)
    ensures Advances(c, ConnectedSup(c, k, nr, pf, command), nr, false, [])
  {
    hide Inv, TxInv, SameData, SendPending, HandleNr, Emitted, Advances, AckIfPolled, IsValidNr, MarkUnsent;
    HandleNrAcks(c, nr);
    var c1 := HandleNr(c, nr);
    var c2 := c1.(peerBusy := k == RNR);
    PolledAck(c, c2, nr, pf, command);
    var ack := AckIfPolled(c2, pf, command);
    SendsAcks(c, c2, nr, ack);
    if k == OtherS { SendsAcks(c, c1, nr, []); }
    if k == REJ {
      MarkUnsentAcks(c, c2, nr, nr);
      var c3 := c2.(tx := MarkUnsent(c2.tx, nr));
      assert forall a :: a in ack ==> a.Transmit? && Emitted(c3, a.frame) by {
        forall a | a in ack
          ensures a.Transmit? && Emitted(c3, a.frame)
        {
          MarkUnsentData(c2.tx, nr);
          EmittedLater(c2, c3, a.frame);
        }
      }
      SendsAcks(c, c3, nr, ack);
    }
  }

  /** Timer flags and retry counts are invisible to the peer. */
  ghost predicate SameWire(c: Conn, d: Conn) {
    && SamePeers(c, d) && c.tx == d.tx && c.vr == d.vr && (Live(c) <==> Live(d))
    && (c.state.AwaitingConnection? <==> d.state.AwaitingConnection?)
  }

  lemma AdvancesAs(c: Conn, o: Outcome, p: Outcome, nr: Seq8, consumed: bool, payload: seq<byte>)
    requires Advances(c, o, nr, consumed, payload) && SameWire(o.conn, p.conn) && o.out == p.out
    ensures Advances(c, p, nr, consumed, payload)
  {
    hide PduOf, SameData, Payloads;
  }

  lemma PreparedAcks(c: Conn, k: SupKind, nr: Seq8, final: bool)
    requires Inv(c) && c.state == TimerRecovery && IsValidNr(c.tx, nr)
    ensures Acked(c, Prepared(c, k, nr, final), nr)
  {
    hide Inv, TxInv, SameData, HandleNr, MarkUnsent;
    HandleNrAcks(c, nr);
    var c1 := HandleNr(c, nr);
    MarkUnsentAcks(c, c1, nr, c1.tx.va);
    var c2 := if final then Recovered(c1) else c1;
    assert Acked(c, c2, nr);
    MarkUnsentAcks(c, c2, nr, nr);
  }

  /** A closing branch sends nothing, or exactly what a retransmission sends. */
  lemma RestartedShape(d: Conn, again: bool)
    ensures var (g, sent) := Restarted(d, again);
            var e := d.(t3 := d.t3 && d.state != Connected);
            (sent == [] && SameWire(e, g)) || (sent == SendPending(e).1 && SameWire(SendPending(e).0, g))
  {
    hide SendPending, Restarted, SameWire;
    if d.state != Connected { RecoveringShape(d, again); }
    else if d.tx.va == d.tx.vs { IdleShape(d, again); }
    else { ResendingShape(d, again); }
  }

  lemma RecoveringShape(d: Conn, again: bool)
    requires d.state != Connected
    ensures var (g, sent) := Restarted(d, again);
            (sent == [] && SameWire(d, g)) || (sent == SendPending(d).1 && SameWire(SendPending(d).0, g))
    ensures d == d.(t3 := d.t3 && d.state != Connected)
  {
    hide SendPending;
  }

  lemma IdleShape(d: Conn, again: bool)
    requires d.state == Connected && d.tx.va == d.tx.vs
    ensures Restarted(d, again).1 == [] && SameWire(d.(t3 := d.t3 && d.state != Connected), Restarted(d, again).0)
  {
    hide SendPending;
  }

  lemma ResendingShape(d: Conn, again: bool)
    requires d.state == Connected && d.tx.va != d.tx.vs
    ensures var (g, sent) := Restarted(d, again);
            var e := d.(t3 := d.t3 && d.state != Connected);
            (sent == [] && SameWire(e, g)) || (sent == SendPending(e).1 && SameWire(SendPending(e).0, g))
  {
    hide SendPending;
  }

  lemma RestartedEffect(c: Conn, d: Conn, nr: Seq8, ack: seq<Action>, again: bool)
    requires Acked(c, d, nr)
    requires forall a :: a in ack ==> a.Transmit? && Emitted(d, a.frame)
    ensures var (g, sent) := Restarted(d, again); Advances(c, Outcome(g, ack + sent, OK, false), nr, false, [])
  {
    hide TxInv, SameData, SendPending, Advances, Emitted, Restarted, SameWire;
    var e := d.(t3 := d.t3 && d.state != Connected);
    assert Acked(c, e, nr);
    assert SameWire(d, e) by { WireWithoutT3(d, e.t3); }
    forall a | a in ack ensures a.Transmit? && Emitted(e, a.frame) { EmittedAs(d, e, a.frame); }
    SendsAcks(c, e, nr, ack);
    RestartedShape(d, again);
    var (g, sent) := Restarted(d, again);
    if sent == [] && SameWire(e, g) {
      assert ack + [] == ack;
      AdvancesAs(c, Outcome(e, ack, OK, false), Outcome(g, ack + sent, OK, false), nr, false, []);
    } else {
      AdvancesAs(c, Outcome(SendPending(e).0, ack + sent, OK, false), Outcome(g, ack + sent, OK, false), nr, false, []);
    }
  }

  lemma WireWithoutT3(d: Conn, t3: bool)
    ensures SameWire(d, d.(t3 := t3))
  {
  }

  lemma EmittedAs(d: Conn, e: Conn, f: Frame)
    requires Emitted(d, f) && SameWire(d, e)
    ensures Emitted(e, f)
  {
    hide PduOf;
  }

  lemma RecoverySupEffect(c: Conn, k: SupKind, nr: Seq8, pf: bool, command: bool)
    requires Inv(c) && c.state == TimerRecovery && IsValidNr(c.tx, nr)
    ensures Advances(c, RecoverySup(c, k, nr, pf, command), nr, false, [])
  {
    hide Inv, Prepared, Restarted, AckIfPolled, Advances, Emitted, IsValidNr, Acked;
    var final := pf && !command;
    var d := Prepared(c, k, nr, final);
    PreparedAcks(c, k, nr, final);
    PolledAck(c, d, nr, pf, command);
    RestartedEffect(c, d, nr, if k.OtherS? then []
        else AckIfPolled(d, pf, command), d.tx.va != d.tx.vs && (final || k.REJ?));
  }

  // ---- I frames ----------------------------------------------------------------------------------------

  predicate Consumes(c: Conn, ns: Seq8) { ns == c.vr && !c.localBusy }

  /** What the receive side of a section, and no retransmission, may do. */
  ghost predicate Receives(c: Conn, d: Conn, out: seq<Action>, consumed: bool, payload: seq<byte>) {
    && d.tx == c.tx && d.cfg == c.cfg && SamePeers(c, d) && d.state == c.state
    && d.vr == (if consumed then Next(c.vr) else c.vr)
    && Emits(d, out) && Payloads(out) == (if consumed && payload != [] then [payload] else [])
  }

  lemma AckSoonReceives(c: Conn, pf: bool)
    requires Live(c)
    ensures var (d, out) := AckSoon(c, pf); Receives(c, d, out, false, [])
  {
    hide Emitted, Ack;
    AckEmits(c, c, true, false);
    NoPayloads(AckSoon(c, pf).1);
  }

  lemma RejectReceives(c: Conn, pf: bool)
    requires Live(c)
    ensures var (d, out) := RejectOnce(c, pf); Receives(c, d, out, false, [])
  {
    hide Emitted, Ack, SFrame;
    AckEmits(c, c, true, false);
    SFrameEmits(c, RejectOnce(c, pf).0, REJ, pf, false);
    NoPayloads(RejectOnce(c, pf).1);
  }

  lemma ReceiveEffect(c: Conn, ns: Seq8, pf: bool, payload: seq<byte>)
    requires Live(c)
    ensures var (d, out) := Receive(c, ns, pf, payload); Receives(c, d, out, Consumes(c, ns), payload)
  {
    hide Emitted, AckSoon, RejectOnce;
    if ns != c.vr { RejectReceives(c, pf); }
    else if c.localBusy { AckSoonReceives(c, pf); }
    else {
      var e := c.(vr := Next(c.vr), rejSent := false);
      AckSoonReceives(e, pf);
      var ack := AckSoon(e, pf).1;
      if payload != [] { PayloadsAppend([Data(payload)], ack); } else { assert [] + ack == ack; }
    }
  }

  lemma InfoEffect(c: Conn, ns: Seq8, nr: Seq8, pf: bool, payload: seq<byte>)
    requires Inv(c) && Live(c) && IsValidNr(c.tx, nr)
    ensures Advances(c, if c.state == Connected then ConnectedInfo(c, ns, nr, pf, payload)
            else RecoveryInfo(c, ns, nr, pf, payload),
                     nr, Consumes(c, ns), payload)
  {
    hide Inv, TxInv, SameData, SendPending, HandleNr, Receive, Emitted, IsValidNr;
    HandleNrKeeps(c, nr);
    HandleNrAcks(c, nr);
    var c1 := HandleNr(c, nr).(peerBusy := false);
    ReceiveEffect(c1, ns, pf, payload);
    if c.state == Connected {
      var (d, out) := Receive(c1, ns, pf, payload);
      var e := if ns == c.vr then d.(t3 := true) else d;
      SendPendingEmits(e);
      var (g, frames) := SendPending(e);
      SameDataTrans(c.tx, e.tx, g.tx, nr, c.tx.vs);
      PayloadsAppend(out, frames);
      NoPayloads(frames);
      forall a | a in out + frames && a.Transmit?
        ensures Emitted(g, a.frame)
      {
        if a in out { EmittedLater(d, g, a.frame); }
      }
    }
  }

  // ---- Timers and calls ----------------------------------------------------------------------------------

  lemma SteadyAs(c: Conn, d: Conn, o: Outcome)
    requires Steady(d, o) && SameWire(c, d)
    ensures Steady(c, o)
  {
    hide Emitted;
  }

  lemma PollSteady(d: Conn)
    requires d.state == TimerRecovery
    ensures Steady(d, PollPeer(d))
  {
    hide Emitted, SFrame, UFrame, Leave, PduOf, SameData;
    LeaveSteady(d, DM, true, LinkFailure);
    var e := d.(retry := d.retry + 1, t1 := true);
    SFrameEmits(d, e, RR, true, true);
    ReplyKeepsWindow(d, e, SFrame(d, RR, true, true));
  }

  /** One reply that leaves the window and V(R) alone. */
  lemma ReplyKeepsWindow(c: Conn, d: Conn, a: Action)
    requires (d.state.AwaitingConnection? ==> c.state.AwaitingConnection?) && SameWire(c, d) && a.Transmit?
             && Emitted(d, a.frame)
    ensures Steady(c, Outcome(d, [a], OK, false))
  {
    hide Emitted;
    NoPayloads([a]);
  }

  lemma AskSteady(d: Conn, k: UnnumKind)
    requires (d.state == AwaitingRelease && k == DISC) || (d.state == AwaitingConnection && k == SABM)
    ensures Steady(d, AskAgain(d, k))
  {
    hide Emitted, UFrame, Steady;
    var e := d.(retry := d.retry + 1, t1 := true);
    UFrameEmits(d, e, k, true);
    ReplyKeepsWindow(d, e, UFrame(d, k, true));
  }

  lemma WaitingSteady(d: Conn)
    requires d.state == AwaitingRelease || d.state == AwaitingConnection
    ensures Steady(d, T1Expired(d))
  {
    hide UFrame, Leave, Steady, AskAgain;
    LeaveSteady(d, UA, true, if d.state == AwaitingRelease then ReleaseTimeout else ConnectTimeout);
    AskSteady(d, if d.state == AwaitingRelease then DISC else SABM);
  }

  lemma LiveT1Steady(d: Conn)
    requires Live(d)
    ensures Steady(d, T1Expired(d))
  {
    hide Steady, PollPeer;
    var e := if d.state == Connected then d.(state := TimerRecovery, retry := 0) else d;
    PollSteady(e);
    SteadyAs(d, e, PollPeer(e));
  }

  lemma T1Steady(c: Conn, late: bool)
    ensures Steady(c, OnT1(c, late))
  {
    hide Steady, T1Expired;
    var d := c.(t1 := c.t1 && late);
    if Live(c) { LiveT1Steady(d); }
    else if c.state == Disconnected { IdleT1Steady(d); }
    else { WaitingSteady(d); }
    SteadyAs(c, d, OnT1(c, late));
  }

  lemma IdleT1Steady(d: Conn)
    requires d.state == Disconnected
    ensures Steady(d, T1Expired(d))
  {
    QuietSteady(d);
  }

  lemma T2Steady(c: Conn, late: bool)
    ensures Steady(c, OnT2(c, late))
  {
    hide Emitted, Ack, Steady;
    var d := c.(t2 := c.t2 && late);
    var e := d.(ackPending := false);
    if Live(c) && c.ackPending { AckEmits(d, e, false, false); ReplyKeepsWindow(c, e, Ack(d, false, false)); }
    else { QuietSteady(d); SteadyAs(c, d, Quiet(d)); }
  }

  lemma T3Steady(c: Conn, late: bool)
    ensures Steady(c, OnT3(c, late))
  {
    hide Emitted, SFrame, Steady;
    var d := c.(t3 := c.t3 && late);
    var e := d.(state := TimerRecovery, retry := 0, t1 := true);
    if c.state == Connected { SFrameEmits(d, e, RR, true, true); ReplyKeepsWindow(c, e, SFrame(d, RR, true, true)); }
    else { QuietSteady(d); SteadyAs(c, d, Quiet(d)); }
  }

  lemma HangupSteady(c: Conn)
    ensures Steady(c, Shutdown(c))
  {
    hide Emitted, UFrame;
    UFrameEmits(StopTimers(c), Shutdown(c).conn, DISC, true);
    UFrameEmits(c, Shutdown(c).conn, DISC, true);
    NoPayloads(Shutdown(c).out);
  }

  lemma BusySteady(c: Conn, busy: bool)
    ensures Steady(c, SetBusy(c, busy))
  {
    hide Emitted, SFrame;
    var d := SetBusy(c, busy).conn;
    if Live(c) {
      SFrameEmits(c.(localBusy := busy), d, RR, false, false);
      SFrameEmits(c.(localBusy := busy), d, RNR, false, false);
    }
    NoPayloads(SetBusy(c, busy).out);
  }

  lemma SendEffect(c: Conn, data: seq<byte>)
    requires Inv(c)
    ensures var o := SendData(c, data); if o.code == OK then Accepted(c, o, data) else o == Refusal(c, o.code)
  {
    hide TxInv, SendPending, Emitted, InFlight, Backlog;
    if 0 < |data| <= MAX_INFO_LEN && Live(c) && CanQueue(c) {
      var c1 := Queued(c, data);
      EnqueueKeeps(c.tx, data, c.cfg.window);
      SendPendingEmits(c1);
      EnqueueData(c.tx, data);
      SameDataTrans(c.tx, c1.tx, SendPending(c1).0.tx, c.tx.va, c.tx.vs);
    }
  }

  lemma EnqueueData(w: Tx, data: seq<byte>)
    requires Outstanding(w) < 7
    ensures var v := Enqueue(w, data);
            SameData(w, v, w.va, w.vs) && v.queue[w.vs].data == data
            && (forall s: Seq8 :: Between(w.va, s, w.vs) || s == w.vs <==> Between(w.va, s, v.vs))
  {
  }

  // ---- Frames that open or reset a link ------------------------------------------------------------------

  /** The frame opens the link or starts its numbers again: SABM, and UA at a dialling station. */
  predicate Restarting(c: Conn, f: Frame, refuse: bool) {
    && PduOf(f).Unnum?
    && match PduOf(f).ukind
       case SABM => c.state != AwaitingRelease && (c.state == Disconnected ==> !refuse)
       case UA => c.state == AwaitingConnection && PduOf(f).upf
       case _ => false
  }

  /** The link is open and its numbers and window are new. */
  ghost predicate Reopened(c: Conn, f: Frame, o: Outcome) {
    && Emits(o.conn, o.out) && Payloads(o.out) == [] && Live(o.conn)
    && o.conn.tx.va == 0 && o.conn.tx.vs == 0 && o.conn.vr == 0
    && o.conn.peer.local == c.peer.local
       && o.conn.peer.remote == (if c.state == Disconnected then f.source else c.peer.remote)
  }

  lemma RestartEffect(c: Conn, f: Frame, refuse: bool)
    requires Restarting(c, f, refuse)
    ensures Reopened(c, f, Dispatch(c, f, refuse))
  {
    hide Emitted, Dispatch, UFrame;
    var o := Dispatch(c, f, refuse);
    RestartState(c, f, refuse);
    if PduOf(f).ukind != UA {
      RestartAnswers(c, f, refuse);
      NoPayloads(o.out);
    }
  }

  lemma RestartState(c: Conn, f: Frame, refuse: bool)
    requires Restarting(c, f, refuse)
    ensures var o := Dispatch(c, f, refuse);
            && Live(o.conn) && o.conn.tx.va == 0 && o.conn.tx.vs == 0 && o.conn.vr == 0
            && o.conn.peer.local == c.peer.local
               && o.conn.peer.remote == (if c.state == Disconnected then f.source else c.peer.remote)
            && (PduOf(f).ukind == UA ==> o.out == [])
  {
    hide PduOf, UFrame, Greet, Meet, Relink, Reset, Leave;
    var pf := PduOf(f).upf;
    if PduOf(f).ukind == UA { JoinedState(c); }
    else if c.state == Disconnected { GreetState(c, f, pf); }
    else if c.state == AwaitingConnection { MeetState(c, f, pf); }
    else { RelinkState(c, f, pf); }
  }

  predicate Renumbered(c: Conn, d: Conn) {
    Live(d) && d.tx.va == 0 && d.tx.vs == 0 && d.vr == 0 && d.peer.local == c.peer.local
  }

  lemma GreetState(c: Conn, f: Frame, pf: bool)
    ensures var d := Greet(c, f, pf, false).conn; Renumbered(c, d) && d.peer.remote == f.source
  {
    hide UFrame, Clear;
    var c1 := SetPath(c.(peer := c.peer.(remote := f.source, remoteSet := true)), f.digipeaters);
    ClearZero(c1.tx);
  }

  lemma MeetState(c: Conn, f: Frame, pf: bool)
    ensures var d := Meet(c, f, pf).conn; Renumbered(c, d) && d.peer.remote == c.peer.remote
  {
    hide UFrame, Clear;
    ClearZero(SetPath(c, f.digipeaters).tx);
  }

  lemma RelinkState(c: Conn, f: Frame, pf: bool)
    ensures var d := Relink(c, f, pf).conn; Renumbered(c, d) && d.peer.remote == c.peer.remote
  {
    hide UFrame, Clear;
    ClearZero(SetPath(c, f.digipeaters).tx);
  }

  lemma JoinedState(c: Conn)
    ensures var d := Reset(c.(t1 := false)).(state := Connected, t3 := true); Renumbered(c, d) && d.peer == c.peer
  {
    hide Clear;
    ClearZero(c.tx);
  }

  lemma ClearZero(w: Tx)
    ensures Clear(w).va == 0 && Clear(w).vs == 0
  {
  }

  /** The answer is a UA, after a report of the reset in CONNECTED. */
  lemma RestartAnswers(c: Conn, f: Frame, refuse: bool)
    requires Restarting(c, f, refuse) && PduOf(f).ukind == SABM
    ensures var o := Dispatch(c, f, refuse);
            && o.out == (if c.state == Connected then [LinkReset] else []) + [UFrame(o.conn, UA, PduOf(f).upf)]
            && Emitted(o.conn, UFrame(o.conn, UA, PduOf(f).upf).frame)
  {
    hide PduOf, Emitted, UnnumControl, Clear;
    var d := Dispatch(c, f, refuse).conn;
    UFrameEmits(d, d, UA, PduOf(f).upf);
  }

  /** A SABM that is refused, or that finds the station releasing, and a UA without the F bit. */
  lemma UnansweredEffect(c: Conn, f: Frame, refuse: bool)
    requires PduOf(f).Unnum? && (PduOf(f).ukind == SABM || (PduOf(f).ukind == UA && c.state == AwaitingConnection))
    requires !Restarting(c, f, refuse)
    ensures var o := Dispatch(c, f, refuse);
            && Emits(o.conn, o.out) && Payloads(o.out) == [] && !Live(o.conn)
            && (o.conn.state.AwaitingConnection? ==> c.state.AwaitingConnection?)
            && o.conn.peer.local == c.peer.local
            && (o.conn.state == Disconnected || (c.state != Disconnected && o.conn.peer.remote == c.peer.remote))
  {
    hide PduOf, Emitted, UFrame, Clear;
    var o := Dispatch(c, f, refuse);
    UFrameEmits(c, c, DM, PduOf(f).upf);
    if PduOf(f).ukind == SABM && c.state == Disconnected {
      var c1 := SetPath(c.(peer := c.peer.(remote := f.source, remoteSet := true)), f.digipeaters);
      LeaveSteady(c1, DM, PduOf(f).upf, Refused);
      RefusedOut(c1, PduOf(f).upf);
    }
    NoPayloads(o.out);
  }

  lemma RefusedOut(c: Conn, pf: bool)
    ensures forall a :: a in Leave(c, [UFrame(c, DM, pf)]).out ==> !a.Data?
  {
    hide UFrame, Clear;
  }
}

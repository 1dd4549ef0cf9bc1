/** Single steps of a session that is up and quiet, with everything they put out: the pieces of the concrete runs in
    ConnDialling and ConnRouting. */
module ConnScenes {
  import opened Ax25Types
  import opened TxWindow
  import opened ConnSpec
  import opened ConnInvariants
  import opened ConnEffects
  import opened ConnSession

  /** CONNECTED with V(A) = a, V(S) = e and V(R) = r, nobody busy and nothing rejected. */
  ghost predicate Up(c: Conn, a: Seq8, e: Seq8, r: Seq8) {
    && Inv(c) && c.state == Connected && c.tx.va == a && c.tx.vs == e && c.vr == r
    && !c.peerBusy && !c.localBusy && !c.rejSent
  }

  predicate SameEnds(c: Conn, d: Conn) {
    d.peer.local == c.peer.local && d.peer.remote == c.peer.remote && d.cfg == c.cfg
  }

  /** One frame from c to its peer. */
  predicate Says(c: Conn, out: seq<Action>, pdu: Pdu) {
    && |out| == 1 && out[0].Transmit? && PduOf(out[0].frame) == pdu
    && out[0].frame.source == c.peer.local && out[0].frame.destination == c.peer.remote
  }

  // ---- Sending ---------------------------------------------------------------------------------------------

  lemma UnsentOne(w: Tx, data: seq<byte>, k: nat)
    requires TxInv(w, k) && !Backlog(w) && Outstanding(w) < k <= 7 && 0 < |data| <= MAX_INFO_LEN
    ensures var v := Enqueue(w, data); Unsent(v.queue, v.va, v.vs) == [w.vs] && v.va == w.va && v.vs == Next(w.vs)
  {
    var v := Enqueue(w, data);
    var u := Unsent(v.queue, v.va, v.vs);
    UnsentMembers(v.queue, v.va, v.vs);
    EnqueueKeeps(w, data, k);
    assert w.vs in u;
    forall x | x in u ensures x == w.vs {}
    assert forall i :: 0 <= i < |u| ==> u[i] in u;
    FirstTwoDiffer(u, v.va);
    assert |u| == 1;
  }

  lemma FirstTwoDiffer(u: seq<Seq8>, a: Seq8)
    requires forall i, j :: 0 <= i < j < |u| ==> Off(a, u[i]) < Off(a, u[j])
    ensures |u| > 1 ==> u[0] != u[1]
  {
    assert |u| > 1 ==> Off(a, u[0]) < Off(a, u[1]);
  }

  lemma UpSends(c: Conn, a: Seq8, e: Seq8, r: Seq8, data: seq<byte>)
    requires Up(c, a, e, r) && Off(a, e) < c.cfg.window && 0 < |data| <= MAX_INFO_LEN
    ensures var o := SendData(c, data);
            o.code == OK && Says(c, o.out, Info(e, r, false, data)) && Up(o.conn, a, Next(e), r) && SameEnds(c, o.conn)
  {
    hide TxInv, InFlight, Backlog, PduOf, IControl, MarkSent, Unsent, Enqueue, CanQueue;
    StepKeeps(c, Send(data));
    SlotFreeInsideWindow(c);
    UnsentOne(c.tx, data, c.cfg.window);
    EnqueuedData(c.tx, data);
    MarkSentData(Enqueue(c.tx, data));
    IFrameDecodes(Queued(c, data), e, data);
  }

  lemma EnqueuedData(w: Tx, data: seq<byte>)
    ensures Enqueue(w, data).queue[w.vs].data == data
  {
  }

  // ---- Receiving ---------------------------------------------------------------------------------------------

  /** Nothing is waiting to be sent when a quiet station is acknowledged. */
  lemma NothingWaits(c: Conn, nr: Seq8)
    requires Inv(c) && c.state == Connected && !c.peerBusy && IsValidNr(c.tx, nr)
    ensures var d := HandleNr(c, nr);
            && d.tx.va == nr && d.tx.vs == c.tx.vs && Unsent(d.tx.queue, d.tx.va, d.tx.vs) == []
            && d == c.(tx := d.tx, t1 := d.t1, t3 := d.t3)
  {
    hide TxInv, InFlight, Backlog, Unsent;
    RetireKeeps(c.tx, nr, c.cfg.window);
    UnsentIsBacklog(Retire(c.tx, nr), c.cfg.window);
  }

  lemma UpTakes(c: Conn, a: Seq8, e: Seq8, r: Seq8, nr: Seq8, payload: seq<byte>)
    requires Up(c, a, e, r) && IsValidNr(c.tx, nr) && payload != []
    ensures var o := ConnectedInfo(c, r, nr, false, payload);
            && o.out == [Data(payload)] && o.conn.state == Connected && o.conn.tx.va == nr && o.conn.tx.vs == e
               && o.conn.vr == Next(r)
            && !o.conn.peerBusy && !o.conn.localBusy && !o.conn.rejSent && o.conn.ackPending && SameEnds(c, o.conn)
  {
    hide Inv, HandleNr, IsValidNr, Unsent;
    NothingWaits(c, nr);
  }

  lemma UpRejects(c: Conn, a: Seq8, e: Seq8, r: Seq8, ns: Seq8, nr: Seq8, payload: seq<byte>)
    requires Up(c, a, e, r) && IsValidNr(c.tx, nr) && ns != r
    ensures var o := ConnectedInfo(c, ns, nr, false, payload);
            Says(c, o.out, Sup(REJ, r, false, false)) && o.conn.state == Connected && SameEnds(c, o.conn)
  {
    hide Inv, HandleNr, IsValidNr, Unsent, PduOf, SControl;
    NothingWaits(c, nr);
    SFrameDecodes(HandleNr(c, nr).(peerBusy := false), REJ, false, false);
  }

  lemma UpAcked(c: Conn, a: Seq8, e: Seq8, r: Seq8)
    requires Up(c, a, e, r) && IsValidNr(c.tx, e)
    ensures var o := ConnectedSup(c, REJ, e, false, false);
            o.out == [] && o.conn.state == Connected && o.conn.tx.va == e && o.conn.tx.vs == e && SameEnds(c, o.conn)
  {
    hide Inv, HandleNr, IsValidNr;
    NothingWaits(c, e);
  }

  lemma UpAcks(c: Conn, a: Seq8, e: Seq8, r: Seq8)
    requires Up(c, a, e, r) && c.ackPending
    ensures var o := OnT2(c, false);
            Says(c, o.out, Sup(RR, r, false, false)) && Up(o.conn, a, e, r)
            && SameEnds(c, o.conn)
  {
    hide TxInv, InFlight, Backlog, PduOf, SControl;
    StepKeeps(c, T2(false));
    SFrameDecodes(c.(t2 := false), RR, false, false);
  }

  /** An N(R) that is not valid starts the error recovery. */
  lemma UpMistakes(c: Conn, k: SupKind, nr: Seq8, pf: bool, command: bool)
    requires c.state == Connected && !IsValidNr(c.tx, nr)
    ensures var o := ConnectedSup(c, k, nr, pf, command);
            o.code == InvalidResponse
            && o.conn.state == AwaitingConnection
  {
    hide IsValidNr, UFrame, Clear;
  }

  // ---- Opening and resetting -------------------------------------------------------------------------------------

  lemma Opens(c: Conn, f: Frame)
    requires Inv(c) && c.state != AwaitingRelease && c.state != TimerRecovery
    requires PduOf(f) == Unnum(SABM, true) || (PduOf(f) == Unnum(UA, true) && c.state == AwaitingConnection)
    ensures var o := Dispatch(c, f, false);
            && Up(o.conn, 0, 0, 0) && o.conn.cfg == c.cfg && o.conn.peer.local == c.peer.local
            && o.conn.peer.remote == (if c.state == Disconnected then f.source else c.peer.remote)
            && (PduOf(f).ukind == UA ==> o.out == [])
            && (PduOf(f).ukind == SABM ==>
                  |o.out| >= 1 && Says(o.conn, o.out[|o.out| - 1..], Unnum(UA, true))
                  && o.out[..|o.out| - 1] == if c.state == Connected then [LinkReset] else [])
  {
    hide Inv, PduOf, UFrame, UnnumControl, Clear, Dispatch;
    RestartState(c, f, false);
    FrameKeeps(c, f, false);
    OpenFlags(c, f);
    if PduOf(f).ukind == SABM {
      var o := Dispatch(c, f, false);
      RestartAnswers(c, f, false);
      UFrameDecodes(o.conn, UA, true);
      assert Says(o.conn, [UFrame(o.conn, UA, true)], Unnum(UA, true)) by { UFrameEnds(o.conn, UA); }
    }
  }

  lemma UFrameEnds(c: Conn, k: UnnumKind)
    requires !k.OtherU? && !k.FRMR?
    ensures var f := UFrame(c, k, true).frame; f.source == c.peer.local && f.destination == c.peer.remote
  {
  }

  lemma OpenFlags(c: Conn, f: Frame)
    requires c.state != AwaitingRelease && c.state != TimerRecovery
    requires PduOf(f) == Unnum(SABM, true) || (PduOf(f) == Unnum(UA, true) && c.state == AwaitingConnection)
    ensures var d := Dispatch(c, f, false).conn;
            d.state == Connected && !d.peerBusy && !d.localBusy && !d.rejSent && d.cfg == c.cfg
  {
    hide PduOf, UFrame, Clear;
  }

  lemma LateUa(c: Conn, f: Frame)
    requires PduOf(f) == Unnum(UA, true) && c.state == Connected
    ensures Dispatch(c, f, false) == Quiet(c)
  {
    hide PduOf;
  }

  lemma Redials(c: Conn)
    requires c.state == AwaitingConnection && c.retry < c.cfg.n2
    ensures var o := OnT1(c, false);
            Says(c, o.out, Unnum(SABM, true)) && o.conn.state == AwaitingConnection
            && SameEnds(c, o.conn)
  {
    hide PduOf, UnnumControl;
    UFrameDecodes(c.(t1 := false), SABM, true);
  }

  // ---- The same steps on a party and its channel -------------------------------------------------------------------

  /** One packet with this content, from a station to the one it talks to. */
  predicate Carries(p: Packet, pdu: Pdu, x: Conn) {
    PduOf(p.frame) == pdu && p.frame.source == x.peer.local && p.frame.destination == x.peer.remote
  }

  predicate Linking(c: Conn, d: Conn) {
    SameStation(c.peer.remote, d.peer.local) && SameStation(d.peer.remote, c.peer.local)
  }

  lemma EmitsOne(c: Conn, x: Party, out: seq<Action>, pdu: Pdu)
    requires Says(c, out, pdu)
    ensures Emit(x, out) == [Tag(x, out[0].frame)] && Carries(Tag(x, out[0].frame), pdu, c) && Payloads(out) == []
  {
    hide PduOf;
    EmitOne(x, out);
    NoPayloads(out);
  }

  /** A packet of the other station passes the filters. */
  lemma Taken(c: Conn, d: Conn, p: Packet, pdu: Pdu)
    requires Carries(p, pdu, d) && Linking(c, d) && pdu != NoPdu
    ensures Accepts(c, Relay(p.frame)) && PduOf(Relay(p.frame)) == pdu
            && SameStation(Relay(p.frame).source, p.frame.source)
  {
    hide PduOf;
    RelayKeepsPdu(p.frame);
    TypeOfPdu(p.frame);
  }

  lemma SendsAt(x: Party, a: Seq8, e: Seq8, r: Seq8, data: seq<byte>)
    requires Up(x.conn, a, e, r) && Off(a, e) < x.conn.cfg.window && 0 < |data| <= MAX_INFO_LEN
    ensures var o := Step(x.conn, Send(data));
            var x' := Apply(x, Send(data), o);
            && Up(x'.conn, a, Next(e), r) && SameEnds(x.conn, x'.conn)
            && x'.accepted == x.accepted + [data] && x'.delivered == x.delivered
            && |Emit(x', o.out)| == 1 && Carries(Emit(x', o.out)[0], Info(e, r, false, data), x.conn)
  {
    hide Up, SendData, Tag, PduOf;
    UpSends(x.conn, a, e, r, data);
    var o := Step(x.conn, Send(data));
    EmitsOne(x.conn, Apply(x, Send(data), o), o.out, Info(e, r, false, data));
    assert x.delivered + [] == x.delivered;
  }

  lemma TakesAt(x: Party, d: Conn, p: Packet, a: Seq8, e: Seq8, r: Seq8, nr: Seq8, payload: seq<byte>)
    requires Up(x.conn, a, e, r) && IsValidNr(x.conn.tx, nr) && payload != []
    requires Linking(x.conn, d) && Carries(p, Info(r, nr, false, payload), d)
    ensures var v := Arrive(Relay(p.frame), false);
            var o := Step(x.conn, v);
            var x' := Apply(x, v, o);
            && Up(x'.conn, nr, e, Next(r)) && x'.conn.ackPending && SameEnds(x.conn, x'.conn)
            && x'.accepted == x.accepted && x'.delivered == x.delivered + [payload] && Emit(x', o.out) == []
  {
    hide TxInv, TimerInv, ConnectedInfo, PduOf, IsValidNr, Accepts;
    Taken(x.conn, d, p, Info(r, nr, false, payload));
    StepKeeps(x.conn, Arrive(Relay(p.frame), false));
    UpTakes(x.conn, a, e, r, nr, payload);
    var o := Step(x.conn, Arrive(Relay(p.frame), false));
    OneData(Apply(x, Arrive(Relay(p.frame), false), o), payload);
    assert x.accepted + [] == x.accepted;
  }

  lemma OneData(x: Party, payload: seq<byte>)
    ensures Payloads([Data(payload)]) == [payload] && Emit(x, [Data(payload)]) == []
  {
    assert [Data(payload)][1..] == [];
  }

  lemma RejectsAt(x: Party, d: Conn, p: Packet, a: Seq8, e: Seq8, r: Seq8, ns: Seq8, nr: Seq8, payload: seq<byte>)
    requires Up(x.conn, a, e, r) && IsValidNr(x.conn.tx, nr) && ns != r
    requires Linking(x.conn, d) && Carries(p, Info(ns, nr, false, payload), d)
    ensures var v := Arrive(Relay(p.frame), false);
            var o := Step(x.conn, v);
            var x' := Apply(x, v, o);
            && Live(x'.conn) && SameEnds(x.conn, x'.conn) && x'.accepted == x.accepted && x'.delivered == x.delivered
            && |Emit(x', o.out)| == 1 && Carries(Emit(x', o.out)[0], Sup(REJ, r, false, false), x.conn)
  {
    hide Inv, ConnectedInfo, PduOf, IsValidNr, Accepts, Tag;
    Taken(x.conn, d, p, Info(ns, nr, false, payload));
    UpRejects(x.conn, a, e, r, ns, nr, payload);
    var v := Arrive(Relay(p.frame), false);
    var o := Step(x.conn, v);
    EmitsOne(x.conn, Apply(x, v, o), o.out, Sup(REJ, r, false, false));
    assert x.accepted + [] == x.accepted && x.delivered + [] == x.delivered;
  }

  lemma AckedAt(x: Party, d: Conn, p: Packet, a: Seq8, e: Seq8, r: Seq8)
    requires Up(x.conn, a, e, r) && IsValidNr(x.conn.tx, e) && Linking(x.conn, d)
             && Carries(p, Sup(REJ, e, false, false), d)
    ensures var v := Arrive(Relay(p.frame), false);
            var o := Step(x.conn, v);
            var x' := Apply(x, v, o);
            && Live(x'.conn) && Outstanding(x'.conn.tx) == 0 && x'.accepted == x.accepted
               && x'.delivered == x.delivered && Emit(x', o.out) == []
  {
    hide Inv, ConnectedSup, PduOf, IsValidNr, Accepts;
    Taken(x.conn, d, p, Sup(REJ, e, false, false));
    UpAcked(x.conn, a, e, r);
    assert x.accepted + [] == x.accepted && x.delivered + [] == x.delivered;
  }

  lemma AcksAt(x: Party, a: Seq8, e: Seq8, r: Seq8)
    requires Up(x.conn, a, e, r) && x.conn.ackPending
    ensures var o := Step(x.conn, T2(false));
            var x' := Apply(x, T2(false), o);
            && Up(x'.conn, a, e, r) && SameEnds(x.conn, x'.conn) && x'.accepted == x.accepted
               && x'.delivered == x.delivered
            && |Emit(x', o.out)| == 1 && Carries(Emit(x', o.out)[0], Sup(RR, r, false, false), x.conn)
  {
    hide Up, OnT2, PduOf, Tag;
    UpAcks(x.conn, a, e, r);
    var o := Step(x.conn, T2(false));
    EmitsOne(x.conn, Apply(x, T2(false), o), o.out, Sup(RR, r, false, false));
    assert x.accepted + [] == x.accepted && x.delivered + [] == x.delivered;
  }

  /** SABM at an idle or CONNECTED station, UA at a dialling one. */
  lemma OpensAt(x: Party, p: Packet, pdu: Pdu)
    requires Inv(x.conn) && x.conn.state != AwaitingRelease && x.conn.state != TimerRecovery
    requires pdu == Unnum(SABM, true) || (pdu == Unnum(UA, true) && x.conn.state == AwaitingConnection)
    requires PduOf(Relay(p.frame)) == pdu && Accepts(x.conn, Relay(p.frame))
    ensures var v := Arrive(Relay(p.frame), false);
            var o := Step(x.conn, v);
            var x' := Apply(x, v, o);
            && Up(x'.conn, 0, 0, 0) && x'.conn.cfg == x.conn.cfg && x'.conn.peer.local == x.conn.peer.local
            && x'.conn.peer.remote ==
               (if x.conn.state == Disconnected then Relay(p.frame).source else x.conn.peer.remote)
            && x'.accepted == x.accepted && x'.delivered == x.delivered
            && (pdu.ukind == UA ==> Emit(x', o.out) == [])
            && (pdu.ukind == SABM ==> |Emit(x', o.out)| == 1 && Carries(Emit(x', o.out)[0], Unnum(UA, true), x'.conn))
  {
    hide Up, Dispatch, PduOf, Accepts, Tag;
    Opens(x.conn, Relay(p.frame));
    var v := Arrive(Relay(p.frame), false);
    var o := Step(x.conn, v);
    var x' := Apply(x, v, o);
    if pdu.ukind == SABM {
      var n := |o.out| - 1;
      assert o.out == o.out[..n] + o.out[n..];
      EmitsOne(o.conn, x', o.out[n..], Unnum(UA, true));
      EmitSkips(x', o.out, n);
    }
    assert x.accepted + [] == x.accepted && x.delivered + [] == x.delivered;
  }

  lemma EmitSkips(x: Party, out: seq<Action>, n: nat)
    requires n < |out| && (out[..n] == [] || out[..n] == [LinkReset])
    ensures Emit(x, out) == Emit(x, out[n..]) && Payloads(out) == Payloads(out[n..])
  {
    if out[..n] == [] { assert out[n..] == out; } else { assert n == 1 && out[0] == out[..n][0]; }
  }

  lemma LateUaAt(x: Party, d: Conn, p: Packet)
    requires x.conn.state == Connected && Linking(x.conn, d) && Carries(p, Unnum(UA, true), d)
    ensures var v := Arrive(Relay(p.frame), false);
            var o := Step(x.conn, v);
            Apply(x, v, o) == x && Emit(x, o.out) == []
  {
    hide PduOf, Dispatch, Accepts;
    Taken(x.conn, d, p, Unnum(UA, true));
    LateUa(x.conn, Relay(p.frame));
    assert x.accepted + [] == x.accepted && x.delivered + [] == x.delivered;
  }

  lemma RedialsAt(x: Party)
    requires x.conn.state == AwaitingConnection && x.conn.retry < x.conn.cfg.n2
    ensures var o := Step(x.conn, T1(false));
            var x' := Apply(x, T1(false), o);
            && x'.conn.state == AwaitingConnection && SameEnds(x.conn, x'.conn) && x'.accepted == x.accepted
               && x'.delivered == x.delivered
            && |Emit(x', o.out)| == 1 && Carries(Emit(x', o.out)[0], Unnum(SABM, true), x.conn)
  {
    hide OnT1, PduOf, Tag;
    Redials(x.conn);
    var o := Step(x.conn, T1(false));
    EmitsOne(x.conn, Apply(x, T1(false), o), o.out, Unnum(SABM, true));
    assert x.accepted + [] == x.accepted && x.delivered + [] == x.delivered;
  }
}

/** How a call that is refused and a session that is hung up end at both stations. */
module ConnClosing {
  import opened Ax25Types
  import opened TxWindow
  import opened ConnSpec
  import opened ConnInvariants
  import opened ConnEffects
  import opened ConnSession
  import opened ConnScenes
  import opened ConnDialling
  import opened ConnBusy

  /** Neither station has a session, and nothing is on its way. */
  predicate BothIdle(s: System) {
    s.p0.conn.state == Disconnected && s.p1.conn.state == Disconnected && s.c01 == [] && s.c10 == []
  }

  // ---- Sections that end a session --------------------------------------------------------------------------------

  lemma LeaveShape(c: Conn, first: seq<Action>)
    ensures var o := Leave(c, first);
            && o.conn.state == Disconnected && o.conn.peer.local == c.peer.local && o.conn.peer.remote == c.peer.remote
            && (o.out == first + [Final] || o.out == first + [Final, Disconnect])
  {
    hide Clear;
  }

  lemma EmitEnding(x: Party, out: seq<Action>, first: seq<Action>)
    requires out == first + [Final] || out == first + [Final, Disconnect]
    requires first == [] || (|first| == 1 && !first[0].Data?)
    ensures Emit(x, out) == if first != [] && first[0].Transmit? then [Tag(x, first[0].frame)] else []
  {
    hide Tag;
    assert first != [] ==> out[0] == first[0] && out[1..] == out[|first|..];
    var rest := out[|first|..];
    assert rest == [Final] || rest == [Final, Disconnect];
    assert Emit(x, rest) == [] by { assert rest[1..] == [] || rest[1..] == [Disconnect]; EmitNone(x, rest); }
  }

  lemma {:induction false} EmitNone(x: Party, out: seq<Action>)
    requires forall a :: a in out ==> !a.Transmit?
    ensures Emit(x, out) == []
  {
    if out != [] { assert out[0] in out; EmitNone(x, out[1..]); }
  }

  /** A DISC that is heard in an open session, or while this station waits for its own release, is answered with UA. */
  lemma DiscHeard(x: Party, d: Conn, p: Packet)
    requires (Live(x.conn) || x.conn.state == AwaitingRelease) && Linking(x.conn, d) && Carries(p, Unnum(DISC, true), d)
    ensures var v := Arrive(Relay(p.frame), false);
            var o := Step(x.conn, v);
            var x' := Apply(x, v, o);
            && x'.conn.state == Disconnected && x'.conn.peer.local == x.conn.peer.local
            && x'.conn.peer.remote == x.conn.peer.remote
            && |Emit(x', o.out)| == 1 && Carries(Emit(x', o.out)[0], Unnum(UA, true), x.conn)
  {
    hide PduOf, Accepts, Tag, UFrame, Leave;
    Taken(x.conn, d, p, Unnum(DISC, true));
    var v := Arrive(Relay(p.frame), false);
    var ua := UFrame(x.conn, UA, true);
    LeaveShape(x.conn, [ua]);
    assert Step(x.conn, v) == Leave(x.conn, [ua]) by { DiscStep(x.conn, Relay(p.frame)); }
    var x' := Apply(x, v, Leave(x.conn, [ua]));
    EmitEnding(x', Leave(x.conn, [ua]).out, [ua]);
    TagFrame(x', ua.frame);
    UFrameDecodes(x.conn, UA, true);
    UFrameEnds(x.conn, UA);
  }

  lemma DiscStep(c: Conn, f: Frame)
    requires (Live(c) || c.state == AwaitingRelease) && Accepts(c, f) && PduOf(f) == Unnum(DISC, true)
    ensures Step(c, Arrive(f, false)) == Leave(c, [UFrame(c, UA, true)])
  {
    hide PduOf, Accepts, UFrame, Leave;
  }

  /** UA or DM at a station that waits for its release, and DM at one that is dialling, end it there. */
  lemma EndHeard(x: Party, d: Conn, p: Packet, k: UnnumKind)
    requires || (x.conn.state == AwaitingRelease && (k == UA || k == DM))
             || (x.conn.state == AwaitingConnection && k == DM)
    requires Linking(x.conn, d) && Carries(p, Unnum(k, true), d)
    ensures var v := Arrive(Relay(p.frame), false);
            var o := Step(x.conn, v);
            var x' := Apply(x, v, o);
            x'.conn.state == Disconnected && Emit(x', o.out) == []
            && (x.conn.state == AwaitingConnection ==> o.out == [Fail(Refused, x.conn.retry), Final, Disconnect])
  {
    hide PduOf, Accepts, Tag, EnterDisconnected;
    Taken(x.conn, d, p, Unnum(k, true));
    var v := Arrive(Relay(p.frame), false);
    var first := if x.conn.state == AwaitingConnection then [Fail(Refused, x.conn.retry)] else [];
    assert Step(x.conn, v) == Leave(x.conn, first) by { EndStep(x.conn, Relay(p.frame), k); }
    EndShape(x.conn, first);
    EmitEnding(Apply(x, v, Leave(x.conn, first)), Leave(x.conn, first).out, first);
  }

  lemma EndShape(c: Conn, first: seq<Action>)
    requires c.state != Disconnected
    ensures Leave(c, first).out == first + [Final, Disconnect] && Leave(c, first).conn.state == Disconnected
  {
    hide Clear;
  }

  lemma EndStep(c: Conn, f: Frame, k: UnnumKind)
    requires (c.state == AwaitingRelease && (k == UA || k == DM)) || (c.state == AwaitingConnection && k == DM)
    requires Accepts(c, f) && PduOf(f) == Unnum(k, true)
    ensures Step(c, Arrive(f, false)) ==
            Leave(c, if c.state == AwaitingConnection then [Fail(Refused, c.retry)] else [])
  {
    hide PduOf, Accepts, Leave;
  }

  // ---- A refused call ---------------------------------------------------------------------------------------------

  /** The called station's application refuses: DM goes back, and there is no session. */
  lemma CallRefused(x: Party, p: Packet)
    requires x.conn.state == Disconnected && PduOf(Relay(p.frame)) == Unnum(SABM, true)
    requires Accepts(x.conn, Relay(p.frame))
    ensures var v := Arrive(Relay(p.frame), true);
            var o := Step(x.conn, v);
            var x' := Apply(x, v, o);
            && x'.conn.state == Disconnected && x'.conn.peer.local == x.conn.peer.local
            && x'.conn.peer.remote == Relay(p.frame).source
            && |Emit(x', o.out)| == 1 && Carries(Emit(x', o.out)[0], Unnum(DM, true), x'.conn)
  {
    hide PduOf, Accepts, Tag, UFrame, Leave, SetPath;
    var f := Relay(p.frame);
    var g := SetPath(x.conn.(peer := x.conn.peer.(remote := f.source, remoteSet := true)), f.digipeaters);
    var dm := UFrame(g, DM, true);
    var o := Step(x.conn, Arrive(f, true));
    assert o == Leave(g, [dm]).(joined := true);
    LeaveShape(g, [dm]);
    PathKeepsEnds(x.conn, f);
    EmitEnding(Apply(x, Arrive(f, true), o), o.out, [dm]);
    TagFrame(Apply(x, Arrive(f, true), o), dm.frame);
    UFrameDecodes(g, DM, true);
    UFrameEnds(g, DM);
  }

  lemma PathKeepsEnds(c: Conn, f: Frame)
    ensures var g := SetPath(c.(peer := c.peer.(remote := f.source, remoteSet := true)), f.digipeaters);
            g.peer.local == c.peer.local && g.peer.remote == f.source && g.state == c.state
  {
  }

  /** A call that the other side refuses leaves both stations without a session, and the caller is told. */
  lemma RefusalEndsBoth(c0: Conn, c1: Conn, remote: Address, digis: seq<Address>)
    requires CanDial(c0, c1, remote, digis)
    ensures var s := Dialled(c0, c1, remote, digis);
            var t := RunBoth(s, [(false, Receive(true))]);
            && BothIdle(RunBoth(s, [(false, Receive(true)), (true, Receive(false))]))
            && t.c10 != []
            && Step(t.p0.conn, Arrive(Relay(t.c10[0].frame), false)).out == [Fail(Refused, 0), Final, Disconnect]
  {
    hide Inv, PduOf, Step, Apply, Emit, Accepts, Dialled, Turn;
    var s := Dialled(c0, c1, remote, digis);
    DialledCalls(c0, c1, remote, digis);
    RefusalSent(s);
    var t := Turn(s, false, Receive(true));
    RunOne(s, false, Receive(true));
    RunTwo(s, [(false, Receive(true)), (true, Receive(false))]);
    RefusalHeard(t);
  }

  lemma RefusalSent(s: System)
    requires Calls(s, 1) && s.c10 == [] && s.p1.conn.state == Disconnected
    ensures var t := Turn(s, false, Receive(true));
            && t.p0 == s.p0 && t.c01 == [] && t.p1.conn.state == Disconnected
            && |t.c10| == 1 && Carries(t.c10[0], Unnum(DM, true), t.p1.conn) && Linking(t.p0.conn, t.p1.conn)
  {
    hide Inv, PduOf, Step, Apply, Emit;
    RelayKeepsPdu(s.c01[0].frame);
    TypeOfPdu(s.c01[0].frame);
    CallRefused(s.p1, s.c01[0]);
  }

  lemma RefusalHeard(s: System)
    requires s.p0.conn.state == AwaitingConnection && s.c01 == [] && s.p1.conn.state == Disconnected
    requires |s.c10| == 1 && Carries(s.c10[0], Unnum(DM, true), s.p1.conn) && Linking(s.p0.conn, s.p1.conn)
    ensures BothIdle(Turn(s, true, Receive(false)))
    ensures Step(s.p0.conn, Arrive(Relay(s.c10[0].frame), false)).out ==
            [Fail(Refused, s.p0.conn.retry), Final, Disconnect]
  {
    hide PduOf, Step, Apply, Emit;
    EndHeard(s.p0, s.p1.conn, s.c10[0], DM);
  }

  // ---- A hang-up --------------------------------------------------------------------------------------------------

  lemma HangsUp(x: Party)
    requires Live(x.conn)
    ensures var o := Step(x.conn, Hangup);
            var x' := Apply(x, Hangup, o);
            && x'.conn.state == AwaitingRelease && SameEnds(x.conn, x'.conn)
            && |Emit(x', o.out)| == 1 && Carries(Emit(x', o.out)[0], Unnum(DISC, true), x.conn)
  {
    hide PduOf, Tag, UFrame;
    var o := Step(x.conn, Hangup);
    UFrameDecodes(x.conn, DISC, true);
    UFrameEnds(x.conn, DISC);
    EmitOne(Apply(x, Hangup, o), o.out);
    TagFrame(Apply(x, Hangup, o), o.out[0].frame);
  }

  /** One side hangs up: its DISC and the UA for it end the session at both stations. */
  lemma HangupEndsBoth(s: System)
    requires Quiescent(s)
    ensures BothIdle(RunBoth(s, [(true, Local(Hangup)), (false, Receive(false)), (true, Receive(false))]))
  {
    hide PartyInv, PairInv, Step, Apply, Emit, Turn, PduOf;
    var acts := [(true, Local(Hangup)), (false, Receive(false)), (true, Receive(false))];
    DiscSent(s);
    var t := Turn(s, true, Local(Hangup));
    DiscArrives(t);
    var u := Turn(t, false, Receive(false));
    UaArrives(u);
    assert acts[1..] == [(false, Receive(false)), (true, Receive(false))];
    RunTwo(t, acts[1..]);
  }

  lemma DiscSent(s: System)
    requires Quiescent(s)
    ensures var t := Turn(s, true, Local(Hangup));
            && t.p0.conn.state == AwaitingRelease && t.p1 == s.p1 && t.c10 == [] && Linking(t.p0.conn, t.p1.conn)
            && |t.c01| == 1 && Carries(t.c01[0], Unnum(DISC, true), t.p0.conn)
  {
    hide PartyInv, PairInv, Step, Apply, Emit, PduOf;
    HangsUp(s.p0);
  }

  lemma DiscArrives(s: System)
    requires s.p0.conn.state == AwaitingRelease && (Live(s.p1.conn) || s.p1.conn.state == AwaitingRelease)
    requires Linking(s.p0.conn, s.p1.conn) && s.c01 != [] && Carries(s.c01[0], Unnum(DISC, true), s.p0.conn)
    ensures var t := Turn(s, false, Receive(false));
            && t.p0 == s.p0 && t.p1.conn.state == Disconnected && t.c01 == s.c01[1..] && Linking(t.p0.conn, t.p1.conn)
            && t.p1.conn.peer.local == s.p1.conn.peer.local && t.p1.conn.peer.remote == s.p1.conn.peer.remote
            && |t.c10| == |s.c10| + 1 && t.c10[..|s.c10|] == s.c10
            && Carries(t.c10[|s.c10|], Unnum(UA, true), t.p1.conn)
  {
    hide Step, Apply, Emit, PduOf, SameStation;
    DiscHeard(s.p1, s.p0.conn, s.c01[0]);
  }

  lemma UaArrives(s: System)
    requires s.p0.conn.state == AwaitingRelease && s.c01 == [] && s.p1.conn.state == Disconnected
    requires |s.c10| == 1 && Carries(s.c10[0], Unnum(UA, true), s.p1.conn) && Linking(s.p0.conn, s.p1.conn)
    ensures BothIdle(Turn(s, true, Receive(false)))
  {
    hide PduOf, Step, Apply, Emit;
    EndHeard(s.p0, s.p1.conn, s.c10[0], UA);
  }
}

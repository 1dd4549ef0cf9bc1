/** From the first SABM on: two idle stations, one call, any losses, retries and interleavings.  A SABM that reaches a
    station which already has data under way starts its numbers again and loses that data; this is shown by a run, and
    the exact condition under which no SABM does so is what the safety of the session rests on. */
module ConnDialling {
  import opened Ax25Types
  import opened TxWindow
  import opened ConnSpec
  import opened ConnInvariants
  import opened ConnEffects
  import opened ConnSession
  import opened ConnScenes

  /** One idle station has just called another: its first SABM is on the way. */
  function Dialled(c0: Conn, c1: Conn, remote: Address, digis: seq<Address>): System {
    var o := Step(c0, Dial(remote, digis));
    var x := Party(o.conn, [], [], 0);
    System(x, Party(c1, [], [], 0), Emit(x, o.out), [])
  }

  ghost predicate CanDial(c0: Conn, c1: Conn, remote: Address, digis: seq<Address>) {
    && Inv(c0) && Inv(c1) && c0.state == Disconnected && c1.state == Disconnected
    && SameStation(remote, c1.peer.local) && |digis| <= MAX_DIGIPEATERS
  }

  lemma DialledInv(c0: Conn, c1: Conn, remote: Address, digis: seq<Address>)
    requires CanDial(c0, c1, remote, digis)
    ensures var s := Dialled(c0, c1, remote, digis);
            SystemInv(s) && s.p0.conn.state == AwaitingConnection && |s.c01| == 1 && IsSabm(s.c01[0].frame)
  {
    hide Inv, PduOf, Clear, SetPath, UnnumControl;
    var o := Step(c0, Dial(remote, digis));
    StepKeeps(c0, Dial(remote, digis));
    var d := Reset(SetPath(c0.(peer := c0.peer.(remote := remote, remoteSet := true)), digis));
    UFrameDecodes(d, SABM, true);
    assert o.out == [UFrame(d, SABM, true)];
    EmitOne(Party(o.conn, [], [], 0), o.out);
  }

  /** Safety from the first SABM on, whatever is lost, retried or sent meanwhile, as long as every SABM that opens or
      resets a link finds a station with nothing outstanding and V(S) = 0: what each side was handed is a prefix of
      what the other side's calls accepted, and nothing that was acknowledged is missing. */
  lemma SafetyFromDial(c0: Conn, c1: Conn, remote: Address, digis: seq<Address>, acts: seq<(bool, Act)>)
    requires CanDial(c0, c1, remote, digis) && Careful(Dialled(c0, c1, remote, digis), acts)
    ensures var t := RunBoth(Dialled(c0, c1, remote, digis), acts);
            && SystemInv(t) && t.p1.delivered <= t.p0.accepted && t.p0.delivered <= t.p1.accepted
            && t.p0.accepted[..t.p0.acked] <= t.p1.delivered && t.p1.accepted[..t.p1.acked] <= t.p0.delivered
            && (Live(t.p0.conn) && Outstanding(t.p0.conn.tx) == 0 ==> t.p1.delivered == t.p0.accepted)
            && (Live(t.p1.conn) && Outstanding(t.p1.conn.tx) == 0 ==> t.p0.delivered == t.p1.accepted)
  {
    hide Careful, SystemInv, Dialled, RunBoth;
    DialledInv(c0, c1, remote, digis);
    SessionSafety(Dialled(c0, c1, remote, digis), acts);
  }

  /** Exactly when a SABM, or the UA that answers one, leaves the numbers of the receiving station right. */
  lemma RestartExact(s: System, first: bool, refuse: bool)
    requires SystemInv(s) && Inbound(s, first).0 != []
    requires var (ch, x, _) := Inbound(s, first);
             Accepts(x.conn, Relay(ch[0].frame)) && Restarting(x.conn, Relay(ch[0].frame), refuse)
    ensures SystemInv(Turn(s, first, Receive(refuse))) <==> Restartable(Inbound(s, first).1)
    ensures Live(Inbound(s, first).1.conn) ==>
              (Restartable(Inbound(s, first).1) <==>
                  Inbound(s, first).1.conn.tx.va == 0
                  && Inbound(s, first).1.conn.tx.vs == 0)
  {
    hide ChannelInv, PairInv, Restarting, Relay, Accepts, Restartable;
    var (ch, x, _) := Inbound(s, first);
    if Restartable(x) { TurnKeeps(s, first, Receive(refuse)); } else { OldNumbers(s, first, refuse); }
    if Live(x.conn) { RestartableLive(x); }
  }

  lemma OldNumbers(s: System, first: bool, refuse: bool)
    requires SystemInv(s) && Inbound(s, first).0 != []
    requires var (ch, x, _) := Inbound(s, first);
             Accepts(x.conn, Relay(ch[0].frame)) && Restarting(x.conn, Relay(ch[0].frame), refuse) && !Restartable(x)
    ensures !SystemInv(Turn(s, first, Receive(refuse)))
  {
    hide PartyInv, PairInv, Relay, Accepts, Restartable, PduOf, Dispatch, Linked, Emit, Ordered;
    var (ch, x, y) := Inbound(s, first);
    var f := Relay(ch[0].frame);
    var e := Arrive(f, refuse);
    assert PacketInv(ch[0], y, x);
    RelayKeepsPdu(ch[0].frame);
    assert |x.delivered| == 0 by { NothingDelivered(x, y, ch[0], refuse); }
    PartyBounds(x);
    StepKeeps(x.conn, e);
    RestartEffect(x.conn, f, refuse);
    RestartedParty(x, e, Step(x.conn, e));
  }

  lemma NothingDelivered(x: Party, y: Party, p: Packet, refuse: bool)
    requires PartyInv(x) && PacketInv(p, y, x) && Restarting(x.conn, Relay(p.frame), refuse)
    ensures x.delivered == []
  {
    hide Inv, PduOf;
    RelayKeepsPdu(p.frame);
  }

  // ---- A called station that waits to be spoken to ------------------------------------------------------

  predicate Hears(s: System, a: (bool, Act)) {
    !a.0 && a.1.Receive? && s.c01 != [] && !PduOf(s.c01[0].frame).Unnum?
  }

  /** The called station calls `send_data` only after an I or S frame of the caller has arrived. */
  ghost predicate Patient(s: System, acts: seq<(bool, Act)>, heard: bool)
    decreases |acts|
  {
    acts != [] ==>
      && (!acts[0].0 && acts[0].1.Local? && acts[0].1.event.Send? ==> heard)
      && Patient(Turn(s, acts[0].0, acts[0].1), acts[1..], heard || Hears(s, acts[0]))
  }

  /** Only the caller dials; once it has been heard no SABM is left, and until then the called station has no data. */
  ghost predicate CallInv(s: System, heard: bool) {
    && SystemInv(s) && !s.p1.conn.state.AwaitingConnection?
    && (forall i :: 0 <= i < |s.c10| ==> !IsSabm(s.c10[i].frame))
    && (if heard then !s.p0.conn.state.AwaitingConnection? && forall i :: 0 <= i < |s.c01| ==> !IsSabm(s.c01[i].frame)
        else s.p1.accepted == [])
  }

  lemma CallAllows(s: System, heard: bool, a: (bool, Act))
    requires CallInv(s, heard)
    ensures Allowed(s, a.0, a.1)
  {
    hide Inv, PduOf, Accepts, Step, PacketInv;
    var (ch, x, y) := Inbound(s, a.0);
    if a.1.Receive? && ch != [] {
      RelayKeepsPdu(ch[0].frame);
      assert PacketInv(ch[0], y, x);
    }
  }

  lemma {:induction false} PatientIsCareful(s: System, acts: seq<(bool, Act)>, heard: bool)
    requires CallInv(s, heard) && Patient(s, acts, heard)
    ensures Careful(s, acts)
    decreases |acts|
  {
    hide CallInv, Turn, Allowed, Hears;
    if acts != [] {
      CallAllows(s, heard, acts[0]);
      CallKept(s, heard, acts[0]);
      PatientIsCareful(Turn(s, acts[0].0, acts[0].1), acts[1..], heard || Hears(s, acts[0]));
    }
  }

  lemma CallKept(s: System, heard: bool, a: (bool, Act))
    requires CallInv(s, heard) && (!a.0 && a.1.Local? && a.1.event.Send? ==> heard)
    ensures CallInv(Turn(s, a.0, a.1), heard || Hears(s, a))
  {
    hide PartyInv, PairInv, ChannelInv, PduOf, First, Allowed, NewPacket;
    CallAllows(s, heard, a);
    TurnKeeps(s, a.0, a.1);
    if a.0 { CallerKept(s, heard, a.1); } else { CalledKept(s, heard, a.1); }
  }

  lemma FirstTalks(s: System, a: Act)
    requires SystemInv(s) && Allowed(s, true, a)
    ensures Talks(s, First(s, a))
    ensures forall p :: p in First(s, a).c10 ==> p in s.c10
    ensures !(a.Local? && a.event.Send?) ==> First(s, a).p0.accepted == s.p0.accepted
  {
    hide SystemInv, NewPacket, Step, PduOf, Emit, Welcome;
    match a
    case Local(e) => LocalKeeps(s, e);
    case Receive(refuse) => if s.c10 != [] { ConnSession.ReceiveKeeps(s, refuse); }
    case Lose(i) =>
  }

  lemma CallerKept(s: System, heard: bool, a: Act)
    requires CallInv(s, heard) && Allowed(s, true, a) && SystemInv(First(s, a))
    ensures CallInv(First(s, a), heard || Hears(s, (true, a)))
  {
    hide SystemInv, PduOf, First, Allowed;
    FirstTalks(s, a);
    var t := First(s, a);
    forall i | 0 <= i < |t.c10| ensures !IsSabm(t.c10[i].frame) { assert t.c10[i] in s.c10; }
  }

  lemma CalledKept(s: System, heard: bool, a: Act)
    requires CallInv(s, heard) && Allowed(s, false, a) && SystemInv(Turn(s, false, a))
    requires a.Local? && a.event.Send? ==> heard
    ensures CallInv(Turn(s, false, a), heard || Hears(s, (false, a)))
  {
    hide SystemInv, PduOf, First, Allowed, Welcome;
    var r := Swap(s);
    assert SystemInv(r) by { SwapInv(s); }
    assert Allowed(r, true, a) by { SwapAllowed(s, a); }
    FirstTalks(r, a);
    var t := Turn(s, false, a);
    forall i | 0 <= i < |t.c01| && heard ensures !IsSabm(t.c01[i].frame) { assert t.c01[i] in s.c01; }
    if Hears(s, (false, a)) { HeardMeansNoSabm(s, a.refuse); }
  }

  lemma SwapInv(s: System)
    requires SystemInv(s)
    ensures SystemInv(Swap(s))
  {
    hide PartyInv, PairInv, ChannelInv, SameStation;
  }

  lemma SwapAllowed(s: System, a: Act)
    requires Allowed(s, false, a)
    ensures Allowed(Swap(s), true, a)
  {
    hide Welcome;
  }

  /** Once an I or S frame is at the head of the caller's channel, no SABM is behind it and the caller is not
      dialling. */
  lemma HeardMeansNoSabm(s: System, refuse: bool)
    requires SystemInv(s) && s.c01 != [] && !PduOf(s.c01[0].frame).Unnum?
    ensures !s.p0.conn.state.AwaitingConnection?
    ensures var t := Turn(s, false, Receive(refuse)); forall i :: 0 <= i < |t.c01| ==> !IsSabm(t.c01[i].frame)
  {
    hide PartyInv, PairInv, PacketInv, PduOf, Step, Emit;
    forall i | 0 <= i < |s.c01[1..]| ensures !IsSabm(s.c01[1..][i].frame) { assert Ordered(s.c01[0], s.c01[i + 1]); }
  }

  /** A called station that sends only after it has heard an I or S frame from the caller loses nothing, and neither
      does the caller: safety from one call, with no condition on retries, losses or interleaving. */
  lemma PatientSafety(c0: Conn, c1: Conn, remote: Address, digis: seq<Address>, acts: seq<(bool, Act)>)
    requires CanDial(c0, c1, remote, digis) && Patient(Dialled(c0, c1, remote, digis), acts, false)
    ensures var t := RunBoth(Dialled(c0, c1, remote, digis), acts);
            && SystemInv(t) && t.p1.delivered <= t.p0.accepted && t.p0.delivered <= t.p1.accepted
            && (Live(t.p0.conn) && Outstanding(t.p0.conn.tx) == 0 ==> t.p1.delivered == t.p0.accepted)
            && (Live(t.p1.conn) && Outstanding(t.p1.conn.tx) == 0 ==> t.p0.delivered == t.p1.accepted)
  {
    hide SystemInv, Careful, Patient, RunBoth, Dialled;
    var s := Dialled(c0, c1, remote, digis);
    DialledInv(c0, c1, remote, digis);
    assert CallInv(s, false) by { DialledCall(c0, c1, remote, digis); }
    PatientIsCareful(s, acts, false);
    SafetyFromDial(c0, c1, remote, digis, acts);
  }

  lemma DialledCall(c0: Conn, c1: Conn, remote: Address, digis: seq<Address>)
    requires CanDial(c0, c1, remote, digis)
    ensures CallInv(Dialled(c0, c1, remote, digis), false)
  {
    hide SystemInv, Inv, Emit, Step;
    DialledInv(c0, c1, remote, digis);
  }

  // ---- A run that loses data ------------------------------------------------------------------------------------

  /** T1 expires once while dialling; the called station takes the first SABM, accepts p, takes the second SABM and
      accepts q; then everything on the way arrives, in order and without loss. */
  function Calling(p: seq<byte>, q: seq<byte>): seq<(bool, Act)> {
    [(true, Local(T1(false))), (false, Receive(false)), (false, Local(Send(p))), (false, Receive(false)),
        (false, Local(Send(q)))]
  }

  function Arriving(): seq<(bool, Act)> {
    [(true, Receive(false)), (true, Receive(false)), (true, Receive(false)), (true, Receive(false)),
        (false, Receive(false))]
  }

  lemma RunFive(s: System, acts: seq<(bool, Act)>)
    requires |acts| == 5
    ensures RunBoth(s, acts) ==
            Turn(Turn(Turn(Turn(Turn(s, acts[0].0, acts[0].1), acts[1].0, acts[1].1), acts[2].0, acts[2].1),
                      acts[3].0, acts[3].1), acts[4].0, acts[4].1)
  {
    hide Turn;
    var s1 := Turn(s, acts[0].0, acts[0].1);
    var s2 := Turn(s1, acts[1].0, acts[1].1);
    var s3 := Turn(s2, acts[2].0, acts[2].1);
    var s4 := Turn(s3, acts[3].0, acts[3].1);
    assert acts[1..][1..] == acts[2..] && acts[2..][1..] == acts[3..] && acts[3..][1..] == acts[4..]
           && acts[4..][1..] == [];
    assert RunBoth(s, acts) == RunBoth(s1, acts[1..]) == RunBoth(s2, acts[2..]) == RunBoth(s3, acts[3..]);
    assert RunBoth(s3, acts[3..]) == RunBoth(s4, acts[4..]);
    var s5 := Turn(s4, acts[4].0, acts[4].1);
    assert RunBoth(s4, acts[4..]) == RunBoth(s5, acts[4..][1..]) == s5;
  }

  /** The caller is dialling, has been handed nothing, and its SABMs are what is on the way to the other station. */
  ghost predicate Calls(s: System, n: nat) {
    && s.p0.conn.state == AwaitingConnection && Inv(s.p0.conn) && s.p0.delivered == []
    && SameStation(s.p0.conn.peer.remote, s.p1.conn.peer.local)
    && |s.c01| == n && forall i :: 0 <= i < n ==> Carries(s.c01[i], Unnum(SABM, true), s.p0.conn)
  }

  /** The called station is up and has accepted these payloads; `back` is on the way to the caller. */
  ghost predicate Answered(s: System, e: Seq8, accepted: seq<seq<byte>>, back: seq<Pdu>) {
    && Up(s.p1.conn, 0, e, 0) && s.p1.accepted == accepted && Linking(s.p0.conn, s.p1.conn)
    && |s.c10| == |back| && forall i :: 0 <= i < |back| ==> Carries(s.c10[i], back[i], s.p1.conn)
  }

  lemma DialledCalls(c0: Conn, c1: Conn, remote: Address, digis: seq<Address>)
    requires CanDial(c0, c1, remote, digis)
    ensures var s := Dialled(c0, c1, remote, digis);
            Calls(s, 1) && s.c10 == [] && s.p1 == Party(c1, [], [], 0) && s.p0.conn.retry == 0
                && s.p0.conn.cfg == c0.cfg
  {
    hide Inv, PduOf, Clear, UnnumControl, Emit, Tag;
    var d := Reset(SetPath(c0.(peer := c0.peer.(remote := remote, remoteSet := true)), digis));
    var o := Step(c0, Dial(remote, digis));
    UFrameDecodes(d, SABM, true);
    assert o.out == [UFrame(d, SABM, true)];
    StepKeeps(c0, Dial(remote, digis));
    EmitsOne(o.conn, Party(o.conn, [], [], 0), o.out, Unnum(SABM, true));
  }

  lemma CallerRetries(s: System, n: nat)
    requires Calls(s, n) && s.p0.conn.retry < s.p0.conn.cfg.n2
    ensures var t := Turn(s, true, Local(T1(false))); Calls(t, n + 1) && t.c10 == s.c10 && t.p1 == s.p1
  {
    hide Inv, PduOf, Step, Apply, Emit, SameStation;
    StepKeeps(s.p0.conn, T1(false));
    RedialsAt(s.p0);
    assert Inv(Apply(s.p0, T1(false), Step(s.p0.conn, T1(false))).conn) by { AppliedConn(s.p0, T1(false)); }
  }

  lemma AppliedConn(x: Party, e: Event)
    ensures Apply(x, e, Step(x.conn, e)).conn == Step(x.conn, e).conn
  {
    hide Step;
  }

  lemma SabmTaken(s: System, e: Seq8, accepted: seq<seq<byte>>, back: seq<Pdu>, n: nat)
    requires Calls(s, n + 1) && Answered(s, e, accepted, back)
    ensures var t := Turn(s, false, Receive(false)); Calls(t, n) && Answered(t, 0, accepted, back + [Unnum(UA, true)])
  {
    hide Inv, PduOf, Step, Apply, Emit, Accepts, SameStation;
    assert Inv(s.p1.conn) && s.p1.conn.state == Connected;
    Taken(s.p1.conn, s.p0.conn, s.c01[0], Unnum(SABM, true));
    OpensAt(s.p1, s.c01[0], Unnum(SABM, true));
  }

  lemma FirstSabmTaken(s: System, n: nat)
    requires Calls(s, n + 1) && Inv(s.p1.conn) && s.p1.conn.state == Disconnected && s.p1.accepted == [] && s.c10 == []
    ensures var t := Turn(s, false, Receive(false)); Calls(t, n) && Answered(t, 0, [], [Unnum(UA, true)])
  {
    hide Inv, PduOf, Step, Apply, Emit;
    RelayKeepsPdu(s.c01[0].frame);
    TypeOfPdu(s.c01[0].frame);
    OpensAt(s.p1, s.c01[0], Unnum(SABM, true));
  }

  lemma CalledSends(s: System, accepted: seq<seq<byte>>, back: seq<Pdu>, data: seq<byte>, n: nat)
    requires Calls(s, n) && Answered(s, 0, accepted, back) && 0 < |data| <= MAX_INFO_LEN
    ensures var t := Turn(s, false, Local(Send(data)));
            Calls(t, n)
            && Answered(t, 1, accepted + [data], back + [Info(0, 0, false, data)])
  {
    hide Inv, PduOf, Step, Apply, Emit, SameStation;
    SendsAt(s.p1, 0, 0, 0, data);
  }

  lemma CallsTwice(c0: Conn, c1: Conn, remote: Address, digis: seq<Address>, p: seq<byte>, q: seq<byte>)
    requires CanDial(c0, c1, remote, digis) && c0.cfg.n2 >= 1 && 0 < |p| <= MAX_INFO_LEN && 0 < |q| <= MAX_INFO_LEN
    ensures var s := RunBoth(Dialled(c0, c1, remote, digis), Calling(p, q));
            Calls(s, 0) && Answered(s, 1, [p, q],
                [Unnum(UA, true), Info(0, 0, false, p), Unnum(UA, true), Info(0, 0, false, q)])
  {
    hide Inv, Calls, Answered, Dialled, Turn;
    var s := Dialled(c0, c1, remote, digis);
    RunFive(s, Calling(p, q));
    DialledCalls(c0, c1, remote, digis);
    CallerRetries(s, 1);
    var s1 := Turn(s, true, Local(T1(false)));
    var ua, ip, iq := Unnum(UA, true), Info(0, 0, false, p), Info(0, 0, false, q);
    assert [ua] + [ip] == [ua, ip] && [ua, ip] + [ua] == [ua, ip, ua] && [ua, ip, ua] + [iq] == [ua, ip, ua, iq];
    assert [] + [p] == [p] && [p] + [q] == [p, q];
    FirstSabmTaken(s1, 1);
    var s2 := Turn(s1, false, Receive(false));
    CalledSends(s2, [], [ua], p, 1);
    var s3 := Turn(s2, false, Local(Send(p)));
    SabmTaken(s3, 1, [p], [ua, ip], 0);
    var s4 := Turn(s3, false, Receive(false));
    CalledSends(s4, [p], [ua, ip, ua], q, 0);
  }

  /** The caller is up with V(R) = r and has been handed these payloads. */
  ghost predicate Joined(s: System, r: Seq8, delivered: seq<seq<byte>>) {
    Up(s.p0.conn, 0, 0, r) && s.p0.delivered == delivered && s.c01 == []
  }

  lemma CallerJoins(s: System, e: Seq8, accepted: seq<seq<byte>>, back: seq<Pdu>)
    requires Calls(s, 0) && Answered(s, e, accepted, [Unnum(UA, true)] + back)
    ensures var t := Turn(s, true, Receive(false)); Joined(t, 0, []) && Answered(t, e, accepted, back)
  {
    hide Inv, Up, PduOf, Step, Apply, Emit, Accepts, SameStation;
    Taken(s.p0.conn, s.p1.conn, s.c10[0], Unnum(UA, true));
    OpensAt(s.p0, s.c10[0], Unnum(UA, true));
  }

  lemma CallerTakes(s: System, r: Seq8, delivered: seq<seq<byte>>, e: Seq8, accepted: seq<seq<byte>>, data: seq<byte>,
      back: seq<Pdu>)
    requires Joined(s, r, delivered) && Answered(s, e, accepted, [Info(r, 0, false, data)] + back) && data != []
    ensures var t := Turn(s, true, Receive(false));
            Joined(t, Next(r), delivered + [data])
            && Answered(t, e, accepted, back)
  {
    hide Inv, PduOf, Step, Apply, Emit, SameStation;
    TakesAt(s.p0, s.p1.conn, s.c10[0], 0, 0, r, 0, data);
  }

  lemma CallerIgnoresUa(s: System, r: Seq8, delivered: seq<seq<byte>>, e: Seq8, accepted: seq<seq<byte>>,
      back: seq<Pdu>)
    requires Joined(s, r, delivered) && Answered(s, e, accepted, [Unnum(UA, true)] + back)
    ensures var t := Turn(s, true, Receive(false)); Joined(t, r, delivered) && Answered(t, e, accepted, back)
  {
    hide Inv, PduOf, Step, Apply, Emit, SameStation;
    LateUaAt(s.p0, s.p1.conn, s.c10[0]);
  }

  /** V(R) is 1, so the frame numbered 0 is rejected, and the REJ acknowledges it to its sender. */
  lemma RejectAcknowledges(s: System, delivered: seq<seq<byte>>, accepted: seq<seq<byte>>, data: seq<byte>)
    requires Joined(s, 1, delivered) && Answered(s, 1, accepted, [Info(0, 0, false, data)])
    ensures var t := Turn(Turn(s, true, Receive(false)), false, Receive(false));
            && Live(t.p0.conn) && Live(t.p1.conn) && Outstanding(t.p1.conn.tx) == 0 && t.c01 == [] && t.c10 == []
            && t.p0.delivered == delivered && t.p1.accepted == accepted
  {
    hide Inv, PduOf, Step, Apply, Emit, SameStation;
    RejectsAt(s.p0, s.p1.conn, s.c10[0], 0, 0, 1, 0, 0, data);
    var t := Turn(s, true, Receive(false));
    AckedAt(s.p1, s.p0.conn, t.c01[0], 0, 1, 0);
  }

  /** One retried SABM is enough to lose data: after this run both stations are live, the window is empty, nothing is
      on the way, and q has been acknowledged but never delivered.  The run is not `Careful`. */
  lemma RetriedSabmLosesData(c0: Conn, c1: Conn, remote: Address, digis: seq<Address>, p: seq<byte>, q: seq<byte>)
    requires CanDial(c0, c1, remote, digis) && c0.cfg.n2 >= 1 && 0 < |p| <= MAX_INFO_LEN && 0 < |q| <= MAX_INFO_LEN
    ensures var t := RunBoth(Dialled(c0, c1, remote, digis), Calling(p, q) + Arriving());
            && Live(t.p0.conn) && Live(t.p1.conn) && Outstanding(t.p1.conn.tx) == 0 && t.c01 == [] && t.c10 == []
            && t.p1.accepted == [p, q] && t.p0.delivered == [p]
    ensures !Careful(Dialled(c0, c1, remote, digis), Calling(p, q) + Arriving())
  {
    hide Inv, Calls, Answered, Joined, Dialled, Turn, Calling, Arriving, Careful;
    var s := Dialled(c0, c1, remote, digis);
    var ua, ip, iq := Unnum(UA, true), Info(0, 0, false, p), Info(0, 0, false, q);
    RunAppend(s, Calling(p, q), Arriving());
    CallsTwice(c0, c1, remote, digis, p, q);
    var s5 := RunBoth(s, Calling(p, q));
    ArrivalTurns(s5);
    assert [ua, ip, ua, iq] == [ua] + [ip, ua, iq] && [ip, ua, iq] == [ip] + [ua, iq] && [ua, iq] == [ua] + [iq];
    CallerJoins(s5, 1, [p, q], [ip, ua, iq]);
    var s6 := Turn(s5, true, Receive(false));
    CallerTakes(s6, 0, [], 1, [p, q], p, [ua, iq]);
    assert [] + [p] == [p];
    var s7 := Turn(s6, true, Receive(false));
    CallerIgnoresUa(s7, 1, [p], 1, [p, q], [iq]);
    var s8 := Turn(s7, true, Receive(false));
    RejectAcknowledges(s8, [p], [p, q], q);
    if Careful(s, Calling(p, q) + Arriving()) { SafetyFromDial(c0, c1, remote, digis, Calling(p, q) + Arriving()); }
  }

  lemma ArrivalTurns(s: System)
    ensures var a := Receive(false);
            RunBoth(s, Arriving()) == Turn(Turn(Turn(Turn(Turn(s, true, a), true, a), true, a), true, a), false, a)
  {
    hide Turn;
    RunFive(s, Arriving());
  }

  /** With nothing lost, one SABM and one UA bring both stations into a new session. */
  lemma HandshakeOpensSession(c0: Conn, c1: Conn, remote: Address, digis: seq<Address>)
    requires CanDial(c0, c1, remote, digis)
    ensures var s := Dialled(c0, c1, remote, digis);
            var acts := [(false, Receive(false)), (true, Receive(false))];
            var t := RunBoth(s, acts);
            && Patient(s, acts, false) && Careful(s, acts) && SystemInv(t)
            && Up(t.p0.conn, 0, 0, 0) && Up(t.p1.conn, 0, 0, 0) && Linking(t.p0.conn, t.p1.conn) && t.c01 == []
               && t.c10 == []
  {
    hide SystemInv, Turn, Dialled, Allowed, Up, Linking, Careful, Inv, PduOf;
    var s := Dialled(c0, c1, remote, digis);
    var acts := [(false, Receive(false)), (true, Receive(false))];
    DialledCalls(c0, c1, remote, digis);
    FirstSabmTaken(s, 0);
    var t := Turn(s, false, Receive(false));
    assert [Unnum(UA, true)] + [] == [Unnum(UA, true)];
    CallerJoins(t, 0, [], []);
    var u := Turn(t, true, Receive(false));
    assert acts[1..] == [(true, Receive(false))] && acts[1..][1..] == [];
    assert RunBoth(s, acts) == RunBoth(t, acts[1..]) == RunBoth(u, acts[1..][1..]) == u;
    DialledInv(c0, c1, remote, digis);
    DialledCall(c0, c1, remote, digis);
    PatientIsCareful(s, acts, false);
    SessionSafety(s, acts);
  }
}

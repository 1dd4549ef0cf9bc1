/** Two stations over two lossy first-in first-out channels, from the first SABM on.

    Each party keeps, besides its session state, the payloads its `send_data` calls accepted, the payloads
    handed to its on_data callback, and `acked`, the unbounded count behind V(A).  A packet carries its frame
    and the unbounded numbers behind N(S) and N(R); the stations see the frame only. */
module ConnSession {
  import opened Ax25Types
  import opened TxWindow
  import opened ConnSpec
  import opened ConnInvariants
  import opened ConnEffects

  datatype Party = Party(conn: Conn, accepted: seq<seq<byte>>, delivered: seq<seq<byte>>, acked: nat)

  datatype Packet = Packet(frame: Frame, ns: nat, nr: nat)

  /** `c01` carries packets from p0 to p1, `c10` the other way. */
  datatype System = System(p0: Party, p1: Party, c01: seq<Packet>, c10: seq<Packet>)

  /** Whatever a station may do by itself, short of dialling again. */
  type LocalEvent = e: Event | !e.Arrive? && !e.Dial? witness Hangup

  datatype Act = Local(event: LocalEvent) | Receive(refuse: bool) | Lose(i: nat)

  // ---- Steps -----------------------------------------------------------------------------------

  function Apply(x: Party, e: Event, o: Outcome): Party {
    Party(o.conn,
          x.accepted + (if e.Send? && o.code == OK then [e.data] else []),
          x.delivered + Payloads(o.out),
          if Live(x.conn) && Live(o.conn) && !IsUnnum(e) then x.acked + Off(x.conn.tx.va, o.conn.tx.va) else x.acked)
  }

  /** A U frame opens, resets or closes a link; it acknowledges nothing. */
  predicate IsUnnum(e: Event) { e.Arrive? && PduOf(e.frame).Unnum? }

  /** The packets for the frames in `out`, sent by a party now in state x. */
  function Emit(x: Party, out: seq<Action>): seq<Packet> {
    if out == [] then []
    else (if out[0].Transmit? then [Tag(x, out[0].frame)] else []) + Emit(x, out[1..])
  }

  function Tag(x: Party, f: Frame): Packet {
    Packet(f, x.acked + Off(x.conn.tx.va, ExtractNs(f.control)), |x.delivered|)
  }

  /** What arrives: every digipeater on the way has set its H bit, and the H, C and extension bits of the addresses, and
      the PID of a frame that has none, are what a parsed frame holds (`WireSession` proves it of the codec). */
  function Relay(f: Frame): Frame {
    var n := |f.digipeaters|;
    f.(destination := f.destination.(repeated := false, last := false),
        source := f.source.(repeated := false, last := n == 0),
    digipeaters := seq(n, i requires 0 <= i < n => f.digipeaters[i].(repeated := true, last := i == n - 1)),
    pid := if HasPid(f.ftype) then f.pid else 0)
  }

  function Occurs(s: System, e: Event, rest: seq<Packet>): System {
    var o := Step(s.p0.conn, e);
    var x := Apply(s.p0, e, o);
    System(x, s.p1, s.c01 + Emit(x, o.out), rest)
  }

  /** One act of the first station. */
  function First(s: System, a: Act): System {
    match a
    case Local(e) => Occurs(s, e, s.c10)
    case Receive(refuse) => if s.c10 == [] then s else Occurs(s, Arrive(Relay(s.c10[0].frame), refuse), s.c10[1..])
    case Lose(i) => if i < |s.c10| then s.(c10 := s.c10[..i] + s.c10[i + 1..]) else s
  }

  function Swap(s: System): System { System(s.p1, s.p0, s.c10, s.c01) }

  function Turn(s: System, first: bool, a: Act): System {
    if first then First(s, a) else Swap(First(Swap(s), a))
  }

  function RunBoth(s: System, acts: seq<(bool, Act)>): System
    decreases |acts|
  {
    if acts == [] then s else RunBoth(Turn(s, acts[0].0, acts[0].1), acts[1..])
  }

  // ---- The invariant -----------------------------------------------------------------------------

  /** The modulo-8 state of a live party is the unbounded state modulo 8; a dialling party has no data yet. */
  ghost predicate PartyInv(x: Party) {
    && Inv(x.conn) && (x.conn.state.AwaitingConnection? ==> x.accepted == [] && x.delivered == [])
    && (forall i :: 0 <= i < |x.accepted| ==> x.accepted[i] != [])
    && x.acked <= |x.accepted| <= x.acked + 7
    && (Live(x.conn) ==>
          && x.conn.tx.va == x.acked % 8 && x.conn.tx.vs == |x.accepted| % 8 && x.conn.vr == |x.delivered| % 8
          && Outstanding(x.conn.tx) == |x.accepted| - x.acked
          && forall i :: x.acked <= i < |x.accepted| ==> x.conn.tx.queue[i % 8].data == x.accepted[i])
  }

  /** What x knows and what y has of x's data. */
  ghost predicate PairInv(x: Party, y: Party) {
    x.acked <= |y.delivered| <= |x.accepted| && y.delivered == x.accepted[..|y.delivered|]
  }

  ghost predicate PacketInv(p: Packet, x: Party, y: Party) {
    && SameStation(p.frame.source, x.conn.peer.local)
    && y.acked <= p.nr <= |x.delivered|
    && match PduOf(p.frame)
       case Info(ns, nr, _, payload) =>
         && SameStation(p.frame.destination, y.conn.peer.local) && ns == p.ns % 8 && nr == p.nr % 8
         && p.ns < |x.accepted| && payload == x.accepted[p.ns]
         && |y.delivered| <= p.ns + 7 && p.ns <= |y.delivered| + 6
       case Sup(k, nr, _, _) => SameStation(p.frame.destination, y.conn.peer.local) && nr == p.nr % 8 && k != OtherS
       case Unnum(k, _) => k == UA || k == DM || k == DISC || (k == SABM && y.delivered == [])
       case NoPdu => false
  }

  predicate IsSabm(f: Frame) { PduOf(f).Unnum? && PduOf(f).ukind == SABM }

  /** An earlier packet never acknowledges more than a later one, nor runs more than six frames ahead of it; and no SABM
      comes after an I or S frame. */
  ghost predicate Ordered(p: Packet, q: Packet) {
    && p.nr <= q.nr && (PduOf(p.frame).Info? && PduOf(q.frame).Info? ==> p.ns <= q.ns + 6)
    && (IsSabm(q.frame) ==> PduOf(p.frame).Unnum?)
  }

  ghost predicate ChannelInv(ch: seq<Packet>, x: Party, y: Party) {
    && (forall i :: 0 <= i < |ch| ==> PacketInv(ch[i], x, y))
    && (forall i, j :: 0 <= i < j < |ch| ==> Ordered(ch[i], ch[j]))
    && (x.conn.state.AwaitingConnection? ==> forall i :: 0 <= i < |ch| ==> PduOf(ch[i].frame).Unnum?)
  }

  /** A station that is not idle talks to the other one. */
  ghost predicate Linked(x: Party, y: Party) {
    && (x.conn.state != Disconnected ==> SameStation(x.conn.peer.remote, y.conn.peer.local))
    && (y.conn.state != Disconnected ==> SameStation(y.conn.peer.remote, x.conn.peer.local))
  }

  ghost predicate SystemInv(s: System) {
    && PartyInv(s.p0) && PartyInv(s.p1) && PairInv(s.p0, s.p1) && PairInv(s.p1, s.p0)
    && ChannelInv(s.c01, s.p0, s.p1) && ChannelInv(s.c10, s.p1, s.p0) && Linked(s.p0, s.p1)
  }

  // ---- When a link may be opened or reset -------------------------------------------------------------

  /** Everything the station accepted has been acknowledged, and the count is a multiple of eight: above all, when it
      has accepted nothing.  In a live session this is V(A) = V(S) = 0 (`RestartableLive`). */
  predicate Restartable(x: Party) { x.acked == |x.accepted| && |x.accepted| % 8 == 0 }

  /** If the frame will open or reset the link of the receiving station, that station is restartable. */
  predicate Welcome(x: Party, f: Frame, refuse: bool) {
    Accepts(x.conn, f) && Restarting(x.conn, f, refuse) ==> Restartable(x)
  }

  predicate Allowed(s: System, first: bool, a: Act) {
    var (ch, x, _) := Inbound(s, first);
    a.Receive? && ch != [] ==> Welcome(x, Relay(ch[0].frame), a.refuse)
  }

  /** Every SABM that opens or resets a link finds a restartable station. */
  ghost predicate Careful(s: System, acts: seq<(bool, Act)>)
    decreases |acts|
  {
    acts != [] ==> Allowed(s, acts[0].0, acts[0].1) && Careful(Turn(s, acts[0].0, acts[0].1), acts[1..])
  }

  /** The packets on their way to a station, and that station and its peer. */
  function Inbound(s: System, first: bool): (seq<Packet>, Party, Party) {
    if first then (s.c10, s.p0, s.p1) else (s.c01, s.p1, s.p0)
  }

  // ---- Arithmetic modulo 8 --------------------------------------------------------------------------

  lemma OffOfCounts(a: nat, i: nat)
    requires a <= i <= a + 7
    ensures Off(a % 8, i % 8) == i - a
  {
  }

  lemma CountOfOff(a: nat, s: Seq8)
    ensures (a + Off(a % 8, s)) % 8 == s
  {
  }

  lemma NextOfCount(a: nat)
    ensures Next(a % 8) == (a + 1) % 8
  {
  }

  // ---- One party ---------------------------------------------------------------------------------------

  /** How the counts of a party move: `n` frames newly acknowledged, `take` more delivered, `give` more accepted. */
  ghost predicate Moved(x: Party, x': Party, n: nat, take: seq<seq<byte>>, give: seq<seq<byte>>) {
    x'.acked == x.acked + n && x'.delivered == x.delivered + take && x'.accepted == x.accepted + give
  }

  lemma SteadyParty(x: Party, e: Event, o: Outcome)
    requires PartyInv(x) && Inv(o.conn) && Steady(x.conn, o) && !(e.Send? && o.code == OK)
    ensures PartyInv(Apply(x, e, o)) && Moved(x, Apply(x, e, o), 0, [], [])
  {
    hide Inv, Emits, SamePeers;
    var x' := Apply(x, e, o);
    if Live(o.conn) {
      forall i | x.acked <= i < |x.accepted|
        ensures x'.conn.tx.queue[i % 8].data == x.accepted[i]
      {
        OffOfCounts(x.acked, i);
      }
    }
  }

  lemma MutedParty(x: Party, e: Event, o: Outcome)
    requires PartyInv(x) && Inv(o.conn) && Payloads(o.out) == [] && !Live(o.conn) && !e.Send?
    requires o.conn.state.AwaitingConnection? ==> x.conn.state.AwaitingConnection?
    ensures PartyInv(Apply(x, e, o)) && Moved(x, Apply(x, e, o), 0, [], [])
  {
    hide Inv;
  }

  /** A link that starts again from zero keeps the numbers right exactly if the station is restartable. */
  lemma RestartedParty(x: Party, e: Event, o: Outcome)
    requires PartyInv(x) && Inv(o.conn) && Payloads(o.out) == [] && IsUnnum(e) && |x.delivered| % 8 == 0
    requires Live(o.conn) && o.conn.tx.va == 0 && o.conn.tx.vs == 0 && o.conn.vr == 0
    ensures PartyInv(Apply(x, e, o)) <==> Restartable(x)
    ensures Moved(x, Apply(x, e, o), 0, [], [])
  {
    hide Inv;
  }

  lemma RestartableLive(x: Party)
    requires PartyInv(x) && Live(x.conn)
    ensures Restartable(x) <==> x.conn.tx.va == 0 && x.conn.tx.vs == 0
  {
    hide Inv;
  }

  lemma AcceptingParty(x: Party, e: Event, o: Outcome)
    requires PartyInv(x) && Inv(o.conn) && e.Send? && o.code == OK && Accepted(x.conn, o, e.data)
    ensures PartyInv(Apply(x, e, o)) && Moved(x, Apply(x, e, o), 0, [], [e.data])
  {
    hide Inv, Emits, SamePeers;
    var x' := Apply(x, e, o);
    NextOfCount(|x.accepted|);
    OffOfCounts(x.acked, |x'.accepted|);
    forall i | x.acked <= i < |x'.accepted|
      ensures x'.conn.tx.queue[i % 8].data == x'.accepted[i]
    {
      OffOfCounts(x.acked, i);
    }
  }

  lemma AdvancingParty(x: Party, e: Event, o: Outcome, nr: nat, consumed: bool, payload: seq<byte>)
    requires PartyInv(x) && Live(x.conn) && Inv(o.conn) && !e.Send? && !IsUnnum(e) && payload != []
    requires x.acked <= nr <= |x.accepted| && Advances(x.conn, o, nr % 8, consumed, payload)
    ensures PartyInv(Apply(x, e, o)) && Moved(x, Apply(x, e, o), nr - x.acked, if consumed then [payload] else [], [])
  {
    hide Inv, Emits, SamePeers;
    var x' := Apply(x, e, o);
    OffOfCounts(x.acked, nr);
    OffOfCounts(nr, |x.accepted|);
    NextOfCount(|x.delivered|);
    forall i | nr <= i < |x.accepted| ensures x'.conn.tx.queue[i % 8].data == x.accepted[i] { OffOfCounts(nr, i); }
  }

  /** The peer's claim is a true acknowledgement, and `is_valid_nr` accepts it. */
  lemma TrueAckIsValid(x: Party, y: Party, nr: nat)
    requires PartyInv(x) && PairInv(x, y) && Live(x.conn) && x.acked <= nr <= |y.delivered|
    ensures IsValidNr(x.conn.tx, nr % 8) && x.acked + Off(x.conn.tx.va, nr % 8) == nr
  {
    hide Inv;
    OffOfCounts(x.acked, nr);
    ValidNrMeaning(x.conn.tx, nr % 8);
  }

  // ---- The channels -------------------------------------------------------------------------------------

  /** A channel keeps its invariant while its sender's counts grow and its receiver stands still. */
  lemma SenderGrows(ch: seq<Packet>, x: Party, y: Party, x': Party, n: nat, take: seq<seq<byte>>, give: seq<seq<byte>>)
    requires ChannelInv(ch, x, y) && Moved(x, x', n, take, give) && SameLocal(x, x')
    requires x'.conn.state.AwaitingConnection? ==> x.conn.state.AwaitingConnection?
    ensures ChannelInv(ch, x', y)
  {
    hide PduOf, Ordered;
    forall i | 0 <= i < |ch| ensures PacketInv(ch[i], x', y) { assert PacketInv(ch[i], x, y); }
  }

  predicate SameLocal(x: Party, x': Party) { x'.conn.peer.local == x.conn.peer.local }

  /** What a party sends after its step obeys the channel invariant. */
  lemma EmitInv(x: Party, y: Party, out: seq<Action>)
    requires PartyInv(x) && PairInv(x, y) && Linked(x, y) && Emits(x.conn, out) && y.acked <= |x.delivered|
    ensures forall i :: 0 <= i < |Emit(x, out)| ==> NewPacket(Emit(x, out)[i], x) && PacketInv(Emit(x, out)[i], x, y)
  {
    hide PartyInv, PairInv, Linked, NewPacket, PacketInv, Emitted, Tag;
    if out != [] {
      assert out[0] in out;
      assert forall a :: a in out[1..] ==> a in out;
      EmitInv(x, y, out[1..]);
      if out[0].Transmit? { TagInv(x, y, out[0].frame); }
    }
  }

  ghost predicate NewPacket(p: Packet, x: Party) {
    && p.nr == |x.delivered| && (PduOf(p.frame).Info? ==> x.acked <= p.ns < |x.accepted|)
    && (IsSabm(p.frame) ==> x.conn.state.AwaitingConnection?)
    && (x.conn.state.AwaitingConnection? ==> PduOf(p.frame).Unnum?)
  }

  lemma TagInv(x: Party, y: Party, f: Frame)
    requires PartyInv(x) && PairInv(x, y) && Linked(x, y) && Emitted(x.conn, f) && y.acked <= |x.delivered|
    ensures NewPacket(Tag(x, f), x) && PacketInv(Tag(x, f), x, y)
  {
    hide Inv;
    if PduOf(f).Info? {
      CountOfOff(x.acked, PduOf(f).ns);
      assert f.ftype == I && PduOf(f).ns == ExtractNs(f.control);
    }
  }

  lemma AppendInv(ch: seq<Packet>, more: seq<Packet>, x: Party, y: Party)
    requires ChannelInv(ch, x, y) && x.acked <= |x.accepted| <= x.acked + 7
    requires forall i :: 0 <= i < |more| ==> NewPacket(more[i], x) && PacketInv(more[i], x, y)
    ensures ChannelInv(ch + more, x, y)
  {
    hide PduOf;
    var all := ch + more;
    forall i | 0 <= i < |all| ensures PacketInv(all[i], x, y) { if i >= |ch| { assert all[i] == more[i - |ch|]; } }
    forall i, j | 0 <= i < j < |all| ensures Ordered(all[i], all[j]) {
      assert PacketInv(all[i], x, y) && PacketInv(all[j], x, y);
      if j >= |ch| { assert all[j] == more[j - |ch|]; }
      if i >= |ch| { assert all[i] == more[i - |ch|]; }
    }
  }

  /** The rest of a channel after its receiver took the head. */
  lemma TailInv(ch: seq<Packet>, y: Party, x: Party, x': Party)
    requires ch != [] && ChannelInv(ch, y, x) && SameLocal(x, x')
    requires x'.acked <= ch[0].nr
    requires |x'.delivered| == |x.delivered|
             || (|x'.delivered| == |x.delivered| + 1 && PduOf(ch[0].frame).Info? && ch[0].ns == |x.delivered|)
    ensures ChannelInv(ch[1..], y, x')
  {
    hide PduOf;
    forall i | 0 <= i < |ch[1..]| ensures PacketInv(ch[1..][i], y, x') {
      assert PacketInv(ch[i + 1], y, x) && Ordered(ch[0], ch[i + 1]);
    }
  }

  /** A channel whose receiver changed nothing that matters to it. */
  lemma ReceiverStill(ch: seq<Packet>, y: Party, x: Party, x': Party)
    requires ChannelInv(ch, y, x) && SameLocal(x, x') && x'.acked == x.acked && x'.delivered == x.delivered
    ensures ChannelInv(ch, y, x')
  {
    hide PduOf, Ordered;
    forall i | 0 <= i < |ch| ensures PacketInv(ch[i], y, x') { assert PacketInv(ch[i], y, x); }
  }

  lemma DropInv(ch: seq<Packet>, i: nat, x: Party, y: Party)
    requires ChannelInv(ch, x, y) && i < |ch|
    ensures ChannelInv(ch[..i] + ch[i + 1..], x, y)
  {
    hide PacketInv, Ordered;
  }

  lemma EmitOne(x: Party, out: seq<Action>)
    requires out != [] && out[0].Transmit?
    ensures Emit(x, out) == [Tag(x, out[0].frame)] + Emit(x, out[1..])
    ensures |out| == 1 ==> Emit(x, out) == [Tag(x, out[0].frame)]
  {
    hide Tag;
  }

  lemma {:induction false} EmitAll(x: Party, out: seq<Action>)
    requires forall i :: 0 <= i < |out| ==> out[i].Transmit?
    ensures |Emit(x, out)| == |out| && forall i :: 0 <= i < |out| ==> Emit(x, out)[i] == Tag(x, out[i].frame)
  {
    hide Tag;
    if out != [] { EmitAll(x, out[1..]); }
  }

  // ---- One act ---------------------------------------------------------------------------------------------

  /** What the first station's act has put on the channel is new, and no act makes a station dial. */
  ghost predicate Talks(s: System, t: System) {
    && t.p1 == s.p1 && s.c01 <= t.c01 && (forall i :: |s.c01| <= i < |t.c01| ==> NewPacket(t.c01[i], t.p0))
    && (t.p0.conn.state.AwaitingConnection? ==> s.p0.conn.state.AwaitingConnection?)
  }

  /** A station acts by itself. */
  lemma LocalKeeps(s: System, e: LocalEvent)
    requires SystemInv(s)
    ensures SystemInv(Occurs(s, e, s.c10)) && Talks(s, Occurs(s, e, s.c10))
  {
    hide Inv, Emits, Step, PartyInv, ChannelInv, Apply, Steady, Accepted, Emit;
    var o := Step(s.p0.conn, e);
    var x := Apply(s.p0, e, o);
    LocalParty(s.p0, e);
    SenderGrows(s.c01, s.p0, s.p1, x, 0, [], if e.Send? && o.code == OK then [e.data] else []);
    ReceiverStill(s.c10, s.p1, s.p0, x);
    EmitInv(x, s.p1, o.out);
    PartyBounds(x);
    AppendInv(s.c01, Emit(x, o.out), x, s.p1);
  }

  lemma PartyBounds(x: Party)
    requires PartyInv(x)
    ensures x.acked <= |x.accepted| <= x.acked + 7 && Inv(x.conn)
    ensures Live(x.conn) ==> Outstanding(x.conn.tx) == |x.accepted| - x.acked
  {
  }

  lemma LocalParty(x: Party, e: LocalEvent)
    requires PartyInv(x)
    ensures var o := Step(x.conn, e);
            PartyInv(Apply(x, e, o)) && Emits(o.conn, o.out) && SamePeers(x.conn, o.conn)
            && (o.conn.state.AwaitingConnection? ==> x.conn.state.AwaitingConnection?)
            && (o.conn.state != Disconnected ==> x.conn.state != Disconnected)
            && Apply(x, e, o).conn == o.conn
               && Moved(x, Apply(x, e, o), 0, [], if e.Send? && o.code == OK then [e.data] else [])
  {
    hide Inv, Emits, PartyInv, OnT1, OnT2, OnT3, Shutdown, SetBusy, SendData;
    PartyBounds(x);
    var o := Step(x.conn, e);
    StepKeeps(x.conn, e);
    if x.conn.state == Disconnected { IdleStays(x.conn, e); }
    match e
    case T1(late) => T1Steady(x.conn, late); SteadyParty(x, e, o);
    case T2(late) => T2Steady(x.conn, late); SteadyParty(x, e, o);
    case T3(late) => T3Steady(x.conn, late); SteadyParty(x, e, o);
    case Hangup => HangupSteady(x.conn); SteadyParty(x, e, o);
    case Busy(busy) => BusySteady(x.conn, busy); SteadyParty(x, e, o);
    case Send(data) =>
      SendEffect(x.conn, data);
      if o.code == OK { AcceptingParty(x, e, o); } else { QuietParty(x, e, o); }
  }

  /** A station without a session has nothing to do by itself. */
  lemma IdleStays(c: Conn, e: LocalEvent)
    requires c.state == Disconnected
    ensures Step(c, e).conn.state == Disconnected
  {
  }

  lemma QuietParty(x: Party, e: Event, o: Outcome)
    requires PartyInv(x) && o == Refusal(x.conn, o.code) && o.code != OK
    ensures PartyInv(Apply(x, e, o)) && Moved(x, Apply(x, e, o), 0, [], []) && Emits(o.conn, o.out)
  {
    hide Inv;
    assert x.accepted + [] == x.accepted && x.delivered + [] == x.delivered;
  }

  /** What the arrival of a packet does to its receiver. */
  ghost predicate Arrived(x: Party, x': Party, p: Packet) {
    && PartyInv(x') && SameLocal(x, x') && x'.accepted == x.accepted
    && (x'.conn.state.AwaitingConnection? ==> x.conn.state.AwaitingConnection?)
    && (x'.conn.state == Disconnected || x'.conn.peer.remote == Relay(p.frame).source ||
        (x.conn.state != Disconnected && x'.conn.peer.remote == x.conn.peer.remote))
    && x.acked <= x'.acked <= p.nr
    && (x'.delivered == x.delivered
        || (PduOf(p.frame).Info? && p.ns == |x.delivered| && x'.delivered == x.delivered + [PduOf(p.frame).payload]))
    && (x.conn.state != Disconnected && x'.conn.state == Disconnected ==> PduOf(p.frame).Unnum?)
    && (Live(x.conn) && !PduOf(p.frame).Unnum? && Accepts(x.conn, Relay(p.frame)) ==> Live(x'.conn) && x'.acked == p.nr)
  }

  lemma RelayKeepsPdu(f: Frame)
    ensures PduOf(Relay(f)) == PduOf(f) && Relay(f).ftype == f.ftype
    ensures SameStation(Relay(f).destination, f.destination) && SameStation(Relay(f).source, f.source)
    ensures forall i :: 0 <= i < |Relay(f).digipeaters| ==> Relay(f).digipeaters[i].repeated
  {
  }

  lemma ArrivingParty(x: Party, y: Party, p: Packet, refuse: bool)
    requires PartyInv(x) && PairInv(x, y) && PairInv(y, x) && PartyInv(y) && PacketInv(p, y, x)
    requires Welcome(x, Relay(p.frame), refuse)
    ensures var e := Arrive(Relay(p.frame), refuse);
            var o := Step(x.conn, e);
            Arrived(x, Apply(x, e, o), p) && Emits(o.conn, o.out) && Apply(x, e, o).conn == o.conn
  {
    hide Inv, Emits, PartyInv, PduOf, Dispatch, Advances, Steady, Accepts, Restarting, Reopened, Restartable;
    PartyBounds(x);
    var f := Relay(p.frame);
    var e := Arrive(f, refuse);
    var o := Step(x.conn, e);
    StepKeeps(x.conn, e);
    RelayKeepsPdu(p.frame);
    var pdu := PduOf(f);
    if !Accepts(x.conn, f) {
      QuietSteady(x.conn);
      SteadyArrives(x, e, o, p);
    } else if Restarting(x.conn, f, refuse) {
      RestartEffect(x.conn, f, refuse);
      RestartArrives(x, e, o, p, refuse);
    } else if pdu.Unnum? {
      UnnumArrives(x, y, p, refuse);
    } else if !Live(x.conn) {
      ClosedSteady(x.conn, f, refuse);
      SteadyArrives(x, e, o, p);
    } else {
      TrueAckIsValid(x, y, p.nr);
      LiveArrives(x, y, p, refuse);
    }
  }

  lemma RestartArrives(x: Party, e: Event, o: Outcome, p: Packet, refuse: bool)
    requires PartyInv(x) && Inv(o.conn) && x.acked <= p.nr && e == Arrive(Relay(p.frame), refuse)
    requires Restarting(x.conn, e.frame, refuse) && Restartable(x) && Reopened(x.conn, e.frame, o)
    requires IsSabm(p.frame) ==> x.delivered == []
    ensures Arrived(x, Apply(x, e, o), p) && Emits(o.conn, o.out)
  {
    hide Inv, Emits, PduOf;
    RelayKeepsPdu(p.frame);
    RestartedParty(x, e, o);
    assert x.delivered + [] == x.delivered && x.accepted + [] == x.accepted;
  }

  /** A U frame that opens nothing. */
  lemma UnnumArrives(x: Party, y: Party, p: Packet, refuse: bool)
    requires PartyInv(x) && PacketInv(p, y, x) && PduOf(p.frame).Unnum? && !Restarting(x.conn, Relay(p.frame), refuse)
    ensures var e := Arrive(Relay(p.frame), refuse);
            var o := Dispatch(x.conn, Relay(p.frame), refuse);
            Arrived(x, Apply(x, e, o), p) && Emits(o.conn, o.out)
  {
    hide Inv, Emits, PduOf, Dispatch, Steady, Restarting;
    var f := Relay(p.frame);
    var e := Arrive(f, refuse);
    var o := Dispatch(x.conn, f, refuse);
    FrameKeeps(x.conn, f, refuse);
    RelayKeepsPdu(p.frame);
    if PduOf(f).ukind == SABM || (PduOf(f).ukind == UA && x.conn.state == AwaitingConnection) {
      UnansweredEffect(x.conn, f, refuse);
      MutedParty(x, e, o);
      assert x.delivered + [] == x.delivered && x.accepted + [] == x.accepted;
    } else {
      UnnumSteady(x.conn, f, refuse);
      if x.conn.state == Disconnected { SteadyStays(x.conn, f, refuse); }
      SteadyArrives(x, e, o, p);
    }
  }

  lemma SteadyStays(c: Conn, f: Frame, refuse: bool)
    requires PduOf(f).Unnum? && c.state == Disconnected && PduOf(f).ukind != SABM
    ensures Dispatch(c, f, refuse).conn.state == Disconnected
  {
    hide PduOf, UFrame;
  }

  lemma TypeOfPdu(f: Frame)
    ensures f.ftype == UI ==> PduOf(f) == NoPdu
  {
  }

  lemma SteadyArrives(x: Party, e: Event, o: Outcome, p: Packet)
    requires PartyInv(x) && Inv(o.conn) && Steady(x.conn, o) && !e.Send?
    requires x.acked <= p.nr && (PduOf(p.frame).Unnum? || o == Quiet(x.conn))
             && (o.conn.state != Disconnected ==> x.conn.state != Disconnected)
    requires e.Arrive? && e.frame == Relay(p.frame)
    requires Live(x.conn) && !PduOf(p.frame).Unnum? ==> !Accepts(x.conn, e.frame)
    ensures Arrived(x, Apply(x, e, o), p) && Emits(o.conn, o.out)
  {
    hide Inv, Emits, PartyInv, PduOf;
    SteadyParty(x, e, o);
  }

  /** An I or S frame at a live station. */
  lemma LiveArrives(x: Party, y: Party, p: Packet, refuse: bool)
    requires PartyInv(x) && PairInv(x, y) && PairInv(y, x) && PartyInv(y) && PacketInv(p, y, x)
    requires Live(x.conn) && !PduOf(p.frame).Unnum? && IsValidNr(x.conn.tx, p.nr % 8)
    ensures var f := Relay(p.frame);
            var o := Dispatch(x.conn, f, refuse);
            Arrived(x, Apply(x, Arrive(f, refuse), o), p) && Emits(o.conn, o.out)
  {
    hide Inv, Emits, PartyInv, PduOf, Advances, ConnectedSup, RecoverySup, ConnectedInfo, RecoveryInfo, IsValidNr;
    PartyBounds(x);
    var f := Relay(p.frame);
    var o := Dispatch(x.conn, f, refuse);
    RelayKeepsPdu(p.frame);
    FrameKeeps(x.conn, f, refuse);
    match PduOf(f)
    case Sup(k, nr, pf, command) =>
      if x.conn.state == Connected { ConnectedSupEffect(x.conn, k, nr, pf, command); }
      else { RecoverySupEffect(x.conn, k, nr, pf, command); }
      assert Advances(x.conn, o, p.nr % 8, false, []);
      AdvancesNothing(x.conn, o, p.nr % 8);
      AdvancingArrives(x, Arrive(f, refuse), o, p, false, [0]);
    case Info(ns, nr, pf, payload) =>
      InfoEffect(x.conn, ns, nr, pf, payload);
      PayloadReal(y, p.ns);
      if Consumes(x.conn, ns) { InSequence(x, p.ns); }
      AdvancingArrives(x, Arrive(f, refuse), o, p, Consumes(x.conn, ns), payload);
  }

  lemma AdvancesNothing(c: Conn, o: Outcome, nr: Seq8)
    requires Advances(c, o, nr, false, [])
    ensures Advances(c, o, nr, false, [0])
  {
  }

  lemma PayloadReal(y: Party, i: nat)
    requires PartyInv(y) && i < |y.accepted|
    ensures y.accepted[i] != []
  {
    hide Inv;
  }

  /** The number modulo 8 tells which frame it is: only the next one is taken. */
  lemma InSequence(x: Party, i: nat)
    requires PartyInv(x) && Live(x.conn) && x.conn.vr == i % 8 && |x.delivered| <= i + 7 && i <= |x.delivered| + 6
    ensures i == |x.delivered|
  {
    hide Inv;
  }

  lemma AdvancingArrives(x: Party, e: Event, o: Outcome, p: Packet, consumed: bool, payload: seq<byte>)
    requires PartyInv(x) && Live(x.conn) && Inv(o.conn) && e.Arrive? && !PduOf(p.frame).Unnum? && payload != []
    requires PduOf(e.frame) == PduOf(p.frame) && x.acked <= p.nr <= |x.accepted|
             && Advances(x.conn, o, p.nr % 8, consumed, payload)
    requires consumed ==> PduOf(p.frame).Info? && p.ns == |x.delivered| && PduOf(p.frame).payload == payload
    ensures Arrived(x, Apply(x, e, o), p) && Emits(o.conn, o.out)
  {
    hide Inv, Emits, PartyInv, PduOf;
    AdvancingParty(x, e, o, p.nr, consumed, payload);
  }

  /** A station takes the packet at the head of its channel. */
  lemma ReceiveKeeps(s: System, refuse: bool)
    requires SystemInv(s) && s.c10 != [] && Welcome(s.p0, Relay(s.c10[0].frame), refuse)
    ensures SystemInv(First(s, Receive(refuse))) && Talks(s, First(s, Receive(refuse)))
  {
    hide Inv, Emits, Step, PartyInv, Apply, PduOf, Emit, Ordered, Welcome;
    var p := s.c10[0];
    var e := Arrive(Relay(p.frame), refuse);
    var o := Step(s.p0.conn, e);
    var x := Apply(s.p0, e, o);
    assert PacketInv(p, s.p1, s.p0);
    ArrivingParty(s.p0, s.p1, p, refuse);
    PairAfterArrival(s.p0, s.p1, x, p);
    TailInv(s.c10, s.p1, s.p0, x);
    SenderGrows(s.c01, s.p0, s.p1, x, x.acked - s.p0.acked, x.delivered[|s.p0.delivered|..], []);
    EmitInv(x, s.p1, o.out);
    PartyBounds(x);
    AppendInv(s.c01, Emit(x, o.out), x, s.p1);
  }

  lemma PairAfterArrival(x: Party, y: Party, x': Party, p: Packet)
    requires PairInv(x, y) && PairInv(y, x) && PacketInv(p, y, x) && Arrived(x, x', p)
    ensures PairInv(x', y) && PairInv(y, x')
    ensures |x'.delivered| >= |x.delivered| && x'.delivered == x.delivered + x'.delivered[|x.delivered|..]
  {
    hide Inv, PartyInv, PduOf;
  }

  lemma TurnKeeps(s: System, first: bool, a: Act)
    requires SystemInv(s) && Allowed(s, first, a)
    ensures SystemInv(Turn(s, first, a))
  {
    hide PartyInv, PairInv, ChannelInv, SameStation, Occurs, Welcome;
    var t := if first then s else Swap(s);
    assert SystemInv(t);
    match a
    case Local(e) => LocalKeeps(t, e);
    case Receive(refuse) => if t.c10 != [] { ReceiveKeeps(t, refuse); }
    case Lose(i) => if i < |t.c10| { DropInv(t.c10, i, t.p1, t.p0); }
  }

  lemma {:induction false} RunAppend(s: System, a: seq<(bool, Act)>, b: seq<(bool, Act)>)
    ensures RunBoth(s, a + b) == RunBoth(RunBoth(s, a), b)
    decreases |a|
  {
    hide Turn;
    if a == [] {
      assert a + b == b;
    } else {
      assert (a + b)[1..] == a[1..] + b;
      RunAppend(Turn(s, a[0].0, a[0].1), a[1..], b);
    }
  }

  lemma RunOne(s: System, first: bool, a: Act)
    ensures RunBoth(s, [(first, a)]) == Turn(s, first, a)
  {
    hide Turn;
    assert RunBoth(Turn(s, first, a), [(first, a)][1..]) == Turn(s, first, a);
  }

  // ---- The main results -------------------------------------------------------------------------------------

  /** Safety: under any interleaving of sends, losses, expiries, busy toggles, hang-ups and arrivals, what each
      side was handed is a prefix, in order and without repetition, of what the other side's calls accepted;
      everything acknowledged was handed over, and a live station with an empty window has had all of it delivered. */
  lemma {:induction false} SessionSafety(s: System, acts: seq<(bool, Act)>)
    requires SystemInv(s) && Careful(s, acts)
    ensures var t := RunBoth(s, acts);
            && SystemInv(t) && t.p1.delivered <= t.p0.accepted && t.p0.delivered <= t.p1.accepted
            && t.p0.accepted[..t.p0.acked] <= t.p1.delivered && t.p1.accepted[..t.p1.acked] <= t.p0.delivered
            && (Live(t.p0.conn) && Outstanding(t.p0.conn.tx) == 0 ==> t.p1.delivered == t.p0.accepted)
            && (Live(t.p1.conn) && Outstanding(t.p1.conn.tx) == 0 ==> t.p0.delivered == t.p1.accepted)
    decreases |acts|
  {
    hide PartyInv, ChannelInv, Turn, Allowed;
    if acts != [] {
      TurnKeeps(s, acts[0].0, acts[0].1);
      SessionSafety(Turn(s, acts[0].0, acts[0].1), acts[1..]);
    } else {
      PartyBounds(s.p0);
      PartyBounds(s.p1);
    }
  }

  /** The N(R) field of an I or S frame. */
  function NrOf(p: Pdu): Seq8
    requires p.Info? || p.Sup?
  {
    if p.Info? then p.nr else p.snr
  }

  /** No spurious reset: in every reachable state the N(R) of any packet still on its way to a live station is, modulo
      8, the number of frames its peer truly had when sending it; `is_valid_nr` accepts it, retiring up to it
      acknowledges exactly those frames, no SABM or FRMR is ever on the air, and no arrival enters N(R) error
      recovery. */
  lemma NoSpuriousReset(s: System, acts: seq<(bool, Act)>, first: bool, i: nat, refuse: bool)
    requires SystemInv(s) && Careful(s, acts) && i < |Inbound(RunBoth(s, acts), first).0|
    ensures var (ch, x, y) := Inbound(RunBoth(s, acts), first);
            var pdu := PduOf(ch[i].frame);
            && (pdu.Unnum? ==> pdu.ukind in {SABM, UA, DM, DISC})
            && (Live(x.conn) && !pdu.Unnum? ==>
                  && (pdu.Info? || pdu.Sup?)
                  && x.acked <= ch[i].nr <= |y.delivered| <= |x.accepted|
                  && NrOf(pdu) == ch[i].nr % 8 && IsValidNr(x.conn.tx, NrOf(pdu))
                  && x.acked + Off(x.conn.tx.va, NrOf(pdu)) == ch[i].nr)
            && OnFrame(x.conn, Relay(ch[i].frame), refuse).code != InvalidResponse
  {
    hide PartyInv, PduOf, IsValidNr, Off, OnFrame, Relay, Careful;
    SessionSafety(s, acts);
    var (ch, x, y) := Inbound(RunBoth(s, acts), first);
    assert PacketInv(ch[i], y, x);
    PartyBounds(x);
    if Live(x.conn) { TrueAckIsValid(x, y, ch[i].nr); }
    RelayKeepsPdu(ch[i].frame);
    NoRecovery(x.conn, Relay(ch[i].frame), refuse);
  }

  lemma NoRecovery(c: Conn, f: Frame, refuse: bool)
    requires Live(c) && (PduOf(f).Info? || PduOf(f).Sup?) ==> IsValidNr(c.tx, NrOf(PduOf(f)))
    ensures OnFrame(c, f, refuse).code != InvalidResponse
  {
    hide PduOf, IsValidNr, HandleNr, SendPending, Prepared, Restarted, ConnSpec.Receive, EnterDisconnected;
  }
}

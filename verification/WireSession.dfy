/** Sessions over the codec: every frame a session sends can be carried, over whole runs, and the two stations of
    ConnSession are two stations whose frames are built, carried as bytes, and parsed again. */
module WireSession {
  import opened Ax25Types
  import opened TxWindow
  import opened FrameCodec
  import opened ConnSpec
  import opened ConnSession
  import opened ConnSpeech
  import opened ConnDialling
  import opened Wire

  // ---- Every frame of a run can be carried -----------------------------------------------------------------

  predicate AllSendable(out: seq<Action>) { forall a :: a in out && a.Transmit? ==> Sendable(a.frame) }

  /** The peer stays one that the wire can name, and every frame sent can be carried. */
  predicate Carriable(o: Outcome) { WiredPeer(o.conn.peer) && AllSendable(o.out) }

  /** Arriving frames have wired stations (as the frames of this library have, once parsed), and calls name wired
      ones. */
  predicate WiredEvent(e: Event) {
    match e
    case Arrive(f, _) =>
      Wired(f.source) && !f.source.repeated && forall i :: 0 <= i < |f.digipeaters| ==> Wired(f.digipeaters[i])
    case Dial(remote, digis) => Wired(remote) && !remote.repeated && forall i :: 0 <= i < |digis| ==> Wired(digis[i])
    case _ => true
  }

  predicate WiredPath(path: seq<Address>) { |path| <= 8 && forall i :: 0 <= i < |path| ==> Wired(path[i]) }

  /** What is formed by a session whose stations the wire can name can be carried. */
  lemma FormedSends(d: Conn, f: Frame)
    requires Formed(d, f) && WiredPeer(d.peer) && WiredPath(f.digipeaters)
    ensures Sendable(f)
  {
    hide Wired, IdentifyType;
  }

  lemma NewPathWired(c: Conn, digis: seq<Address>)
    requires WiredPath(c.peer.path) && forall i :: 0 <= i < |digis| ==> Wired(digis[i])
    ensures WiredPath(NewPath(c, digis))
  {
    hide NewPath;
  }

  lemma PeerStaysWired(c: Conn, e: Event)
    requires WiredPeer(c.peer) && WiredEvent(e)
    ensures WiredPeer(Step(c, e).conn.peer) && WiredPath(PathUsed(c, e))
  {
    hide Wired, Step, NewPath, Accepts, IsCall;
    StepPeer(c, e);
    match e
    case Arrive(f, _) => NewPathWired(c, f.digipeaters);
    case Dial(_, digis) => NewPathWired(c, digis);
    case _ =>
  }

  /** Every step with wired stations sends only frames that the wire carries, and keeps a peer the wire can name. */
  lemma StepCarries(c: Conn, e: Event)
    requires WiredPeer(c.peer) && WiredEvent(e)
    ensures Carriable(Step(c, e))
  {
    hide Sendable, WiredPeer, WiredEvent, WiredPath, Formed, Step, PathUsed;
    StepSpeaks(c, e);
    PeerStaysWired(c, e);
    var o := Step(c, e);
    forall a | a in o.out && a.Transmit? ensures Sendable(a.frame) { FormedSends(o.conn, a.frame); }
  }

  lemma {:induction false} RunCarries(c: Conn, es: seq<Event>)
    requires WiredPeer(c.peer) && forall e :: e in es ==> WiredEvent(e)
    ensures WiredPeer(Run(c, es).0.peer) && AllSendable(Run(c, es).1)
    decreases |es|
  {
    hide WiredPeer, WiredEvent, Step, Sendable;
    if es != [] {
      assert es[0] in es && forall e :: e in es[1..] ==> e in es;
      StepCarries(c, es[0]);
      RunCarries(Step(c, es[0]).conn, es[1..]);
    }
  }

  /** A new session with a wired address of its own can be carried. */
  lemma InitCarries(local: Address, n2: nat, window: nat)
    ensures WiredPeer(Init(local, n2, window).peer) <==> Wired(local)
  {
  }

  // ---- The stations of ConnSession over the codec ----------------------------------------------------------------

  /** The frame after every digipeater of its path has repeated it. */
  function Repeated(f: Frame): Frame {
    f.(digipeaters := seq(|f.digipeaters|, i requires 0 <= i < |f.digipeaters| => f.digipeaters[i].(repeated := true)))
  }

  /** What arrives in ConnSession is what is parsed from the bytes that were built. */
  lemma Crosses(f: Frame)
    requires Sendable(f)
    ensures Parse(Built(Repeated(f))) == Parsed(Relay(f))
  {
    hide Wired, Carried, CarriedPath, Parse, Built, IdentifyType;
    var g := Repeated(f);
    FrameCarried(g);
    AddressAs(f.destination, false);
    AddressAs(f.source, false);
    CarriedEnds(f);
    PathCrosses(f.digipeaters, g.digipeaters);
  }

  lemma CarriedEnds(f: Frame)
    requires Wired(f.destination) && Wired(f.source)
    ensures Carried(f.destination) == f.destination && Carried(f.source) == f.source
  {
    hide Wired, Carried;
    AddressAs(f.destination, f.destination.last);
    AddressAs(f.source, f.source.last);
  }

  lemma PathCrosses(digis: seq<Address>, repeated: seq<Address>)
    requires |repeated| == |digis|
    requires forall i :: 0 <= i < |digis| ==> Wired(digis[i]) && repeated[i] == digis[i].(repeated := true)
    ensures CarriedPath(repeated) ==
            seq(|digis|, i requires 0 <= i < |digis| => digis[i].(repeated := true, last := i == |digis| - 1))
  {
    hide Wired, Carried;
    forall i | 0 <= i < |digis|
      ensures CarriedPath(repeated)[i] == digis[i].(repeated := true, last := i == |digis| - 1)
    {
      WiredBits(digis[i], true);
      AddressAs(repeated[i], i == |digis| - 1);
    }
  }

  lemma WiredBits(a: Address, repeated: bool)
    ensures Wired(a.(repeated := repeated)) == Wired(a)
  {
  }

  /** The second station's frames reach the first as bytes. */
  function CodedFirst(s: System, a: Act): System {
    if a.Receive? && s.c10 != [] then
      match Parse(Built(Repeated(s.c10[0].frame)))
      case Parsed(f) => Occurs(s, Arrive(f, a.refuse), s.c10[1..])
      case Malformed => s.(c10 := s.c10[1..])
    else First(s, a)
  }

  function CodedTurn(s: System, first: bool, a: Act): System {
    if first then CodedFirst(s, a) else Swap(CodedFirst(Swap(s), a))
  }

  function RunCoded(s: System, acts: seq<(bool, Act)>): System
    decreases |acts|
  {
    if acts == [] then s else RunCoded(CodedTurn(s, acts[0].0, acts[0].1), acts[1..])
  }

  /** Both stations have wired addresses, and so has everything on its way. */
  predicate WiredSystem(s: System) {
    && WiredPeer(s.p0.conn.peer) && WiredPeer(s.p1.conn.peer)
    && (forall p :: p in s.c01 ==> Sendable(p.frame)) && (forall p :: p in s.c10 ==> Sendable(p.frame))
  }

  lemma {:induction false} EmitSendable(x: Party, out: seq<Action>)
    requires AllSendable(out)
    ensures forall p :: p in Emit(x, out) ==> Sendable(p.frame)
  {
    hide Sendable;
    if out != [] {
      assert out[0] in out && forall a :: a in out[1..] ==> a in out;
      EmitSendable(x, out[1..]);
    }
  }

  lemma OccursWired(s: System, e: Event, rest: seq<Packet>)
    requires WiredSystem(s) && WiredEvent(e) && forall p :: p in rest ==> p in s.c10
    ensures WiredSystem(Occurs(s, e, rest))
  {
    hide Sendable, WiredPeer, WiredEvent, Step, Emit;
    StepCarries(s.p0.conn, e);
    var o := Step(s.p0.conn, e);
    EmitSendable(Apply(s.p0, e, o), o.out);
  }

  lemma ArrivalWired(f: Frame, refuse: bool)
    requires Sendable(f)
    ensures WiredEvent(Arrive(Relay(f), refuse))
  {
  }

  lemma FirstCoded(s: System, a: Act)
    requires WiredSystem(s)
    ensures CodedFirst(s, a) == First(s, a) && WiredSystem(First(s, a))
  {
    hide Sendable, WiredPeer, Occurs, Parse, Built, Relay, Repeated, WiredEvent;
    match a
    case Local(e) => LocalWired(e); OccursWired(s, e, s.c10);
    case Receive(refuse) =>
      if s.c10 != [] {
        assert s.c10[0] in s.c10;
        Crosses(s.c10[0].frame);
        ArrivalWired(s.c10[0].frame, refuse);
        OccursWired(s, Arrive(Relay(s.c10[0].frame), refuse), s.c10[1..]);
      }
    case Lose(i) =>
  }

  lemma LocalWired(e: LocalEvent)
    ensures WiredEvent(e)
  {
  }

  lemma TurnCoded(s: System, first: bool, a: Act)
    requires WiredSystem(s)
    ensures CodedTurn(s, first, a) == Turn(s, first, a) && WiredSystem(Turn(s, first, a))
  {
    hide Sendable, WiredPeer, CodedFirst, First;
    FirstCoded(if first then s else Swap(s), a);
  }

  /** Two stations whose every frame is built, repeated, parsed and filtered again do exactly what the stations of
      ConnSession do. */
  lemma {:induction false} RunCodedIs(s: System, acts: seq<(bool, Act)>)
    requires WiredSystem(s)
    ensures RunCoded(s, acts) == RunBoth(s, acts)
    decreases |acts|
  {
    hide WiredSystem, CodedTurn, Turn;
    if acts != [] {
      TurnCoded(s, acts[0].0, acts[0].1);
      RunCodedIs(Turn(s, acts[0].0, acts[0].1), acts[1..]);
    }
  }

  /** So a session over the codec is safe. */
  lemma CodedSafety(s: System, acts: seq<(bool, Act)>)
    requires WiredSystem(s) && SystemInv(s) && Careful(s, acts)
    ensures var t := RunCoded(s, acts);
            && SystemInv(t) && t.p1.delivered <= t.p0.accepted && t.p0.delivered <= t.p1.accepted
            && (Live(t.p0.conn) && Outstanding(t.p0.conn.tx) == 0 ==> t.p1.delivered == t.p0.accepted)
            && (Live(t.p1.conn) && Outstanding(t.p1.conn.tx) == 0 ==> t.p0.delivered == t.p1.accepted)
  {
    hide WiredSystem, SystemInv, Careful, RunCoded, RunBoth;
    RunCodedIs(s, acts);
    SessionSafety(s, acts);
  }

  /** From one call between idle stations with wired addresses. */
  lemma DialledWired(c0: Conn, c1: Conn, remote: Address, digis: seq<Address>)
    requires WiredPeer(c0.peer) && WiredPeer(c1.peer) && WiredEvent(Dial(remote, digis))
    ensures WiredSystem(Dialled(c0, c1, remote, digis))
  {
    hide Sendable, WiredPeer, WiredEvent, Step, Emit;
    StepCarries(c0, Dial(remote, digis));
    var o := Step(c0, Dial(remote, digis));
    EmitSendable(Party(o.conn, [], [], 0), o.out);
  }
}

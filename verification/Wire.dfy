/** The whole wire stack: frames built and KISS-encoded into a byte stream, cut anywhere, decoded and parsed. */
module Wire {
  import opened Ax25Types
  import opened Kiss
  import opened FrameCodec
  import opened ConnSpec

  /** Each frame as a data frame of port 0. */
  function Messages(fs: seq<Frame>): seq<Message> {
    seq(|fs|, i requires 0 <= i < |fs| => Message(0, 0, Built(fs[i])))
  }

  /** What the receiver makes of the decoder's deliveries: the frames that parse. */
  function Frames(ds: seq<Delivery>): seq<Frame> {
    if ds == [] then []
    else (match Parse(ds[0].data) case Parsed(f) => [f] case Malformed => []) + Frames(ds[1..])
  }

  lemma {:induction false} FramesOf(fs: seq<Frame>)
    requires forall i :: 0 <= i < |fs| ==> Canonical(fs[i])
    ensures Frames(Deliveries(Messages(fs))) == fs
  {
    hide Canonical, Parse, Built;
    if fs != [] {
      assert |fs[0].digipeaters| <= MAX_DIGIPEATERS && |fs[0].payload| <= MAX_INFO_LEN by { CanonicalFits(fs[0]); }
      FrameRoundTrip(fs[0]);
      var ds := Deliveries(Messages(fs));
      assert ds[1..] == Deliveries(Messages(fs[1..]));
      FramesOf(fs[1..]);
    }
  }

  lemma CanonicalFits(f: Frame)
    requires Canonical(f)
    ensures |f.digipeaters| <= MAX_DIGIPEATERS && |f.payload| <= MAX_INFO_LEN && Clean(Message(0, 0, Built(f)))
  {
    hide Built;
    BuiltLength(f);
  }

  /** End to end: whatever came before on the line, after one whole frame a list of canonical frames comes out
      exactly, in order, however the stream is cut. */
  lemma StreamRoundTrip(d: Decoder, garbage: seq<byte>, first: Message, fs: seq<Frame>, chunks: seq<seq<byte>>)
    requires Kiss.Inv(d) && Flatten(chunks) == garbage + Stream([first]) + Stream(Messages(fs))
    requires forall i :: 0 <= i < |fs| ==> Canonical(fs[i])
    ensures var before, all := Kiss.Run(d, garbage + Stream([first])).1, RunChunks(d, chunks).1;
            |before| <= |all| && all[..|before|] == before && Frames(all[|before|..]) == fs
  {
    hide Canonical, Built, Clean, Stream, Flatten, RunChunks, Deliveries;
    var ms := Messages(fs);
    forall i | 0 <= i < |ms| ensures Clean(ms[i]) { CanonicalFits(fs[i]); }
    SelfStabilises(d, garbage, first, ms, chunks);
    FramesOf(fs);
  }

  /** On a clean line, from the first byte. */
  lemma CleanStreamRoundTrip(fs: seq<Frame>, chunks: seq<seq<byte>>)
    requires Flatten(chunks) == Stream(Messages(fs))
    requires forall i :: 0 <= i < |fs| ==> Canonical(fs[i])
    ensures Frames(RunChunks(INITIAL, chunks).1) == fs
  {
    hide Canonical, Built, Clean, Stream, Flatten, RunChunks, Deliveries;
    var ms := Messages(fs);
    forall i | 0 <= i < |ms| ensures Clean(ms[i]) { CanonicalFits(fs[i]); }
    ChunkingIrrelevant(INITIAL, chunks);
    DecodesStream(INITIAL, ms);
    FramesOf(fs);
  }

  // ---- Under the session machine ---------------------------------------------------------------------

  /** A frame whose stations the wire can carry; its H, C and extension bits and the PID of S and U frames are free. */
  predicate Sendable(f: Frame) {
    && |f.digipeaters| <= MAX_DIGIPEATERS && |f.payload| <= MAX_INFO_LEN && f.ftype == IdentifyType(f.control)
    && Wired(f.destination) && !f.destination.repeated && Wired(f.source)
    && forall i :: 0 <= i < |f.digipeaters| ==> Wired(f.digipeaters[i])
  }

  predicate WiredPeer(p: Peer) {
    && Wired(p.local) && Wired(p.remote) && !p.remote.repeated && |p.path| <= MAX_DIGIPEATERS
    && forall i :: 0 <= i < |p.path| ==> Wired(p.path[i])
  }

  /** The three frame builders of a session make sendable frames. */
  lemma SessionFramesSendable(c: Conn, k: UnnumKind, s: SupKind, pf: bool, command: bool, ns: Seq8, data: seq<byte>)
    requires WiredPeer(c.peer) && !k.OtherU? && !k.FRMR? && !s.OtherS?
    ensures Sendable(UFrame(c, k, pf).frame) && Sendable(SFrame(c, s, pf, command).frame)
            && Sendable(IFrame(c, ns, data).frame)
  {
    hide Wired, IdentifyType, UnnumControl, SControl, IControl, PfBit;
    UControlFields(k, pf);
    SControlFields(match s case RR => CTRL_RR case RNR => CTRL_RNR case REJ => CTRL_REJ, c.vr, pf);
    IControlFields(ns, c.vr, false);
  }

  lemma PathNormalised(digis: seq<Address>)
    requires forall i :: 0 <= i < |digis| ==> Wired(digis[i])
    ensures NormalPath(CarriedPath(digis)) == NormalPath(digis)
    ensures forall i :: 0 <= i < |digis| ==> CarriedPath(digis)[i].repeated == digis[i].repeated
  {
    hide Wired, Carried;
    forall i | 0 <= i < |digis|
      ensures CarriedPath(digis)[i].(last := false, repeated := false) == digis[i].(last := false, repeated := false)
      ensures CarriedPath(digis)[i].repeated == digis[i].repeated
    {
      AddressAs(digis[i], i == |digis| - 1);
    }
  }

  lemma AddressAs(a: Address, last: bool)
    requires Wired(a)
    ensures Carried(a.(last := last)) == a.(last := last) && Carried(a) == a
  {
    CarriedFields(a);
    CarriedFields(a.(last := last));
    ShownPlain(a.callsign);
  }

  /** The frame with the bits of its source address as they are read from the wire. */
  function SourceAsRead(f: Frame): Frame { f.(source := f.source.(repeated := false, last := |f.digipeaters| == 0)) }

  /** A session does the same with a frame that crossed the wire as with the frame that was sent; only one that the
      frame opens from DISCONNECTED stores its caller's address with the bits it arrived with. */
  lemma WireTransparent(c: Conn, f: Frame, refuse: bool)
    requires Sendable(f)
    ensures Parse(Built(f)).Parsed?
    ensures OnFrame(c, Parse(Built(f)).frame, refuse) ==
            OnFrame(c, if c.state == Disconnected then SourceAsRead(f) else f, refuse)
  {
    hide Wired, Carried, CarriedPath, Parse, Built, IdentifyType, NormalPath, Reset, SendPending, PduOf, Dispatch;
    FrameCarried(f);
    var g := CarriedFrame(f);
    var h := if c.state == Disconnected then SourceAsRead(f) else f;
    AddressAs(f.destination, false);
    AddressAs(f.source, false);
    PathNormalised(f.digipeaters);
    SamePdu(h, g);
    SameAcceptance(c, h, g);
    if Accepts(c, h) { SameDispatch(c, h, g, refuse); }
  }

  lemma SamePdu(f: Frame, g: Frame)
    requires f.ftype == g.ftype && f.control == g.control && f.payload == g.payload && f.isCommand == g.isCommand
    ensures PduOf(f) == PduOf(g)
  {
  }

  lemma SameAcceptance(c: Conn, f: Frame, g: Frame)
    requires f.ftype == g.ftype && SameStation(f.destination, g.destination) && SameStation(f.source, g.source)
    requires |f.digipeaters| == |g.digipeaters|
    requires forall i :: 0 <= i < |f.digipeaters| ==> f.digipeaters[i].repeated == g.digipeaters[i].repeated
    ensures Accepts(c, f) == Accepts(c, g)
  {
  }

  lemma SameDispatch(c: Conn, f: Frame, g: Frame, refuse: bool)
    requires PduOf(f) == PduOf(g) && (c.state == Disconnected ==> f.source == g.source)
    requires |f.digipeaters| == |g.digipeaters| && NormalPath(f.digipeaters) == NormalPath(g.digipeaters)
    ensures Dispatch(c, f, refuse) == Dispatch(c, g, refuse)
  {
    hide PduOf, NormalPath, Reset, Leave, ConnectedSup, ConnectedInfo, RecoverySup, RecoveryInfo, UFrame, Redial;
    assert forall d :: SetPath(d, f.digipeaters) == SetPath(d, g.digipeaters);
    assert c.state == Disconnected ==> forall pf :: Greet(c, f, pf, refuse) == Greet(c, g, pf, refuse);
    assert forall pf :: Meet(c, f, pf) == Meet(c, g, pf);
    assert forall pf :: Relink(c, f, pf) == Relink(c, g, pf);
  }
}

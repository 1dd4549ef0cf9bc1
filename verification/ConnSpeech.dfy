/** What a session says: the form of every frame of every step.  A station answers with RNR exactly while it is busy
    itself, polls with RR, opens and closes with polled commands, and sends no I frame to a busy peer. */
module ConnSpeech {
  import opened Ax25Types
  import opened TxWindow
  import opened ConnSpec
  import opened ConnEffects

  /** A frame of a section that ends in state d. */
  ghost predicate Formed(d: Conn, f: Frame) {
    && f.destination == d.peer.remote && f.source == d.peer.local
    && f.pid == 0xF0 && f.ftype == IdentifyType(f.control)
    && match PduOf(f)
       case Info(_, nr, pf, payload) =>
         Live(d) && !d.peerBusy && nr == d.vr && f.isCommand && !pf && |payload| <= 256
       case Sup(k, nr, pf, command) =>
         && Live(d) && nr == d.vr && f.payload == []
         && if command then k == RR && pf else k == REJ || k == if d.localBusy then RNR else RR
       case Unnum(k, pf) =>
         f.payload == [] && if f.isCommand then (k == SABM || k == DISC) && pf else k == UA || k == DM
       case NoPdu => false
  }

  /** Every frame in `out` is well formed and goes by the path. */
  ghost predicate Speaks(d: Conn, path: seq<Address>, out: seq<Action>) {
    forall a :: a in out && a.Transmit? ==> Formed(d, a.frame) && a.frame.digipeaters == path
  }

  /** What the form of a frame depends on. */
  predicate SameVoice(c: Conn, d: Conn) {
    && d.peer == c.peer && d.vr == c.vr && d.localBusy == c.localBusy && d.peerBusy == c.peerBusy
    && (Live(d) <==> Live(c))
  }

  // ---- One frame -------------------------------------------------------------------------------------------------

  lemma UForms(c: Conn, d: Conn, k: UnnumKind, pf: bool)
    requires SamePeers(c, d) && (k == UA || k == DM || ((k == SABM || k == DISC) && pf))
    ensures Speaks(d, c.peer.path, [UFrame(c, k, pf)])
  {
    hide PduOf, UnnumControl, UnnumKindOf, IdentifyType, HasPf;
    UFrameDecodes(c, k, pf);
    UControlFields(k, pf);
  }

  lemma SForms(c: Conn, d: Conn, k: SupKind, pf: bool, command: bool)
    requires SamePeers(c, d) && d.vr == c.vr && !k.OtherS? && Live(d)
    requires if command then k == RR && pf else k == REJ || k == if d.localBusy then RNR else RR
    ensures Speaks(d, c.peer.path, [SFrame(c, k, pf, command)])
  {
    hide PduOf, SControl, SupervisoryBits, IdentifyType, HasPf;
    SFrameDecodes(c, k, pf, command);
    SControlFields(match k case RR => CTRL_RR case RNR => CTRL_RNR case REJ => CTRL_REJ, c.vr, pf);
  }

  lemma AckForms(c: Conn, d: Conn, pf: bool)
    requires SamePeers(c, d) && d.vr == c.vr && d.localBusy == c.localBusy && Live(d)
    ensures Speaks(d, c.peer.path, [Ack(c, pf, false)])
  {
    hide SFrame, Speaks;
    SForms(c, d, if c.localBusy then RNR else RR, pf, false);
  }

  lemma IForms(c: Conn, d: Conn, ns: Seq8, data: seq<byte>)
    requires SamePeers(c, d) && d.vr == c.vr && !d.peerBusy && Live(d)
    ensures Formed(d, IFrame(c, ns, data).frame) && IFrame(c, ns, data).frame.digipeaters == c.peer.path
  {
    hide IControl, ExtractNs, ExtractNr, HasPf, IdentifyType;
    IControlFields(ns, c.vr, false);
  }

  lemma Silence(d: Conn, path: seq<Address>, out: seq<Action>)
    requires forall a :: a in out ==> !a.Transmit?
    ensures Speaks(d, path, out)
  {
  }

  lemma Both(d: Conn, e: Conn, path: seq<Address>, first: seq<Action>, more: seq<Action>)
    requires Speaks(d, path, first) && SameVoice(d, e) && Speaks(e, path, more)
    ensures Speaks(e, path, first + more) && Speaks(e, path, first)
  {
    hide PduOf, IdentifyType;
  }

  lemma SendPendingSpeaks(c: Conn)
    requires Live(c)
    ensures var (d, out) := SendPending(c); Speaks(d, c.peer.path, out) && SameVoice(c, d) && d.state == c.state
  {
    hide Formed, IFrame, Unsent, MarkSent;
    var (d, out) := SendPending(c);
    forall a | a in out ensures a.Transmit? && Formed(d, a.frame) && a.frame.digipeaters == c.peer.path {
      var i :| 0 <= i < |out| && a == out[i];
      IForms(c, d, Sent(c)[i], c.tx.queue[Sent(c)[i]].data);
    }
  }

  // ---- Leaving, opening and resetting -----------------------------------------------------------------------------

  /** The section ends in this state, and its frames go by this path. */
  ghost predicate Said(o: Outcome, path: seq<Address>) { Speaks(o.conn, path, o.out) }

  lemma LeaveSays(c: Conn, k: UnnumKind, pf: bool, fault: Fault)
    requires k == UA || k == DM
    ensures Said(Leave(c, []), c.peer.path) && Said(Leave(c, [UFrame(c, k, pf)]), c.peer.path)
    ensures Said(Leave(c, [UFrame(c, k, pf)]).(joined := true), c.peer.path)
    ensures Said(Leave(c, [Fail(fault, c.retry)]), c.peer.path)
    ensures Said(Leave(c, [Fail(fault, c.retry), UFrame(c, k, pf)]), c.peer.path)
    ensures EnterDisconnected(c).0.state == Disconnected
  {
    hide Formed, UFrame, Clear;
    UForms(c, EnterDisconnected(c).0, k, pf);
  }

  lemma ReplySays(c: Conn, pf: bool)
    ensures Said(Outcome(c, [UFrame(c, DM, pf)], OK, false), c.peer.path) && Said(Quiet(c), c.peer.path)
  {
    hide Formed, UFrame;
    UForms(c, c, DM, pf);
  }

  lemma GreetSays(c: Conn, f: Frame, pf: bool, refuse: bool)
    ensures var o := Greet(c, f, pf, refuse);
            && o.joined && (o.conn.state == Disconnected <==> refuse)
            && Said(o, if refuse then NewPath(c, f.digipeaters) else o.conn.peer.path)
  {
    hide Formed, UFrame, Clear, EnterDisconnected, SetPath;
    var c1 := SetPath(c.(peer := c.peer.(remote := f.source, remoteSet := true)), f.digipeaters);
    assert c1.peer.path == NewPath(c, f.digipeaters) by { PathTaken(c, f); }
    LeaveSays(c1, DM, pf, Refused);
    UForms(Reset(c1), Greet(c, f, pf, false).conn, UA, pf);
  }

  /** The path a call brings: its digipeaters in their order, or the old path if there are more than eight. */
  function NewPath(c: Conn, digis: seq<Address>): (path: seq<Address>)
    ensures |digis| <= 8 ==>
              |path| == |digis|
              && forall i :: 0 <= i < |digis| ==> path[i] == digis[i].(repeated := false, last := false)
    ensures |digis| > 8 ==> path == c.peer.path
  {
    if |digis| <= 8 then NormalPath(digis) else c.peer.path
  }

  lemma PathTaken(c: Conn, f: Frame)
    ensures SetPath(c.(peer := c.peer.(remote := f.source, remoteSet := true)), f.digipeaters).peer.path ==
            NewPath(c, f.digipeaters)
  {
  }

  lemma ResetsSay(c: Conn, f: Frame, pf: bool)
    ensures var o := Meet(c, f, pf); Said(o, o.conn.peer.path) && o.conn.state == Connected
    ensures var o := Relink(c, f, pf); Said(o, o.conn.peer.path) && o.conn.state == Connected
  {
    hide Formed, UFrame, Clear, SetPath;
    var d := Reset(SetPath(c, f.digipeaters));
    UForms(d, Meet(c, f, pf).conn, UA, pf);
    UForms(d, Relink(c, f, pf).conn, UA, pf);
  }

  lemma RedialsSay(c: Conn)
    ensures var o := Redial(c); Said(o, o.conn.peer.path) && o.conn.state == AwaitingConnection
    ensures var o := NrErrorRecovery(c); Said(o, o.conn.peer.path) && o.conn.state == AwaitingConnection
  {
    hide Formed, UFrame, Clear;
    UForms(Reset(c), Redial(c).conn, SABM, true);
    UForms(Reset(StopTimers(c)), NrErrorRecovery(c).conn, SABM, true);
  }

  lemma JoinSays(c: Conn)
    ensures var o := Outcome(Reset(c.(t1 := false)).(state := Connected, t3 := true), [], OK, true);
            Said(o, o.conn.peer.path)
  {
    hide Clear;
  }

  // ---- S and I frames in a live session -----------------------------------------------------------------------------

  lemma HandleNrVoice(c: Conn, nr: Seq8)
    ensures var d := HandleNr(c, nr); d == c.(tx := d.tx, t1 := d.t1, t3 := d.t3)
  {
    hide Retire, IsValidNr;
    if IsValidNr(c.tx, nr) {
      var c1 := c.(tx := Retire(c.tx, nr));
      if c.state != Connected {
        assert HandleNr(c, nr) == c1;
      } else if nr == c.tx.vs {
        assert HandleNr(c, nr) == c1.(t1 := false, t3 := true);
      } else if nr != c.tx.va {
        assert HandleNr(c, nr) == c1.(t1 := true, t3 := false);
      } else {
        assert HandleNr(c, nr) == c1;
      }
    }
  }

  lemma PolledSays(c: Conn, pf: bool, command: bool)
    requires Live(c)
    ensures Speaks(c, c.peer.path, AckIfPolled(c, pf, command))
  {
    hide Formed, Ack;
    AckForms(c, c, true);
  }

  lemma ResumedSays(c: Conn, w: Tx, pf: bool, command: bool)
    requires Live(c)
    ensures var o := Resumed(c, w, pf, command);
            Said(o, c.peer.path) && o.conn.peer == c.peer && o.conn.state == c.state
  {
    hide Speaks, SendPending, AckIfPolled;
    var c1 := c.(peerBusy := false);
    PolledSays(c1, pf, command);
    SendPendingSpeaks(c1.(tx := w));
    Both(c1, SendPending(c1.(tx := w)).0, c.peer.path, AckIfPolled(c1, pf, command), SendPending(c1.(tx := w)).1);
  }

  lemma SupervisedSays(c: Conn, k: SupKind, nr: Seq8, pf: bool, command: bool)
    requires Live(c)
    ensures var o := Supervised(c, k, nr, pf, command);
            Said(o, c.peer.path) && o.conn.peer == c.peer && o.conn.state == c.state
  {
    hide Speaks, Resumed, AckIfPolled, MarkUnsent;
    ResumedSays(c, c.tx, pf, command);
    ResumedSays(c, MarkUnsent(c.tx, nr), pf, command);
    PolledSays(c.(peerBusy := true), pf, command);
    Silence(c, c.peer.path, []);
  }

  lemma PreparedVoice(c: Conn, k: SupKind, nr: Seq8, final: bool)
    ensures var d := Prepared(c, k, nr, final); d.peer == c.peer && d.vr == c.vr && d.localBusy == c.localBusy
    ensures Prepared(c, k, nr, final).state == if final then Connected else c.state
  {
    hide HandleNr, MarkUnsent, Noted;
    HandleNrVoice(c, nr);
    NotedVoice(if final then Recovered(HandleNr(c, nr)) else HandleNr(c, nr), k, nr);
  }

  lemma NotedVoice(c: Conn, k: SupKind, nr: Seq8)
    ensures var d := Noted(c, k, nr); d == c.(peerBusy := d.peerBusy, tx := d.tx)
  {
    hide MarkUnsent;
  }

  lemma RestartedSays(d: Conn, again: bool)
    requires Live(d)
    ensures var (e, out) := Restarted(d, again); Speaks(e, d.peer.path, out) && SameVoice(d, e) && e.state == d.state
  {
    hide Formed, SendPending;
    SendPendingSpeaks(d);
    SendPendingSpeaks(d.(t3 := false));
    var (e, out) := SendPending(d.(t3 := false));
    Both(e, e.(t1 := true), d.peer.path, out, []);
    Silence(e, d.peer.path, []);
  }

  lemma RecoverySupSays(c: Conn, k: SupKind, nr: Seq8, pf: bool, command: bool)
    requires c.state == TimerRecovery && IsValidNr(c.tx, nr)
    ensures var o := RecoverySup(c, k, nr, pf, command);
            Said(o, c.peer.path) && o.conn.peer == c.peer && Live(o.conn)
  {
    hide Speaks, Prepared, Restarted, AckIfPolled, IsValidNr;
    var final := pf && !command;
    var d := Prepared(c, k, nr, final);
    var again := d.tx.va != d.tx.vs && (final || k.REJ?);
    PreparedVoice(c, k, nr, final);
    RestartedSays(d, again);
    PolledSays(d, pf, command);
    Silence(d, c.peer.path, []);
    Both(d, Restarted(d, again).0, c.peer.path, if k.OtherS? then [] else AckIfPolled(d, pf, command),
        Restarted(d, again).1);
  }

  lemma ReceiveSays(c: Conn, ns: Seq8, pf: bool, payload: seq<byte>)
    requires Live(c)
    ensures var (d, out) := Receive(c, ns, pf, payload);
            && Speaks(d, c.peer.path, out)
            && d == c.(vr := d.vr, rejSent := d.rejSent, ackPending := d.ackPending, t2 := d.t2)
  {
    hide Formed, Ack, SFrame;
    var d := c.(vr := Next(c.vr), rejSent := false);
    AckForms(c, c, true);
    AckForms(d, d, true);
    SForms(c, c.(rejSent := true), REJ, pf, false);
  }

  lemma InfoSays(c: Conn, ns: Seq8, nr: Seq8, pf: bool, payload: seq<byte>)
    requires Live(c) && IsValidNr(c.tx, nr)
    ensures var o := if c.state == Connected then ConnectedInfo(c, ns, nr, pf, payload)
            else RecoveryInfo(c, ns, nr, pf, payload);
            Said(o, c.peer.path) && o.conn.peer == c.peer && o.conn.state == c.state
  {
    hide Speaks, SendPending, HandleNr, Receive, IsValidNr;
    HandleNrVoice(c, nr);
    var c1 := HandleNr(c, nr).(peerBusy := false);
    ReceiveSays(c1, ns, pf, payload);
    var (d, out) := Receive(c1, ns, pf, payload);
    var e := if ns == c.vr then d.(t3 := true) else d;
    SendPendingSpeaks(e);
    Both(d, SendPending(e).0, c.peer.path, out, SendPending(e).1);
  }

  // ---- Every step --------------------------------------------------------------------------------------------------

  /** The path of the frames of a step: the session's, or, when the step ends it or refuses a call, the one it had. */
  function PathUsed(c: Conn, e: Event): seq<Address> {
    var o := Step(c, e);
    if o.conn.state != Disconnected then o.conn.peer.path
    else if e.Arrive? && o.joined then NewPath(c, e.frame.digipeaters)
    else c.peer.path
  }

  /** What the outcome of a section says by itself. */
  ghost predicate Spoken(c: Conn, o: Outcome) {
    Said(o, if o.conn.state != Disconnected then o.conn.peer.path else c.peer.path)
  }

  lemma UnnumSays(c: Conn, f: Frame, refuse: bool)
    requires PduOf(f).Unnum? && (c.state == Disconnected ==> PduOf(f).ukind != SABM)
    ensures Spoken(c, Dispatch(c, f, refuse)) && (c.state == Disconnected ==> !Dispatch(c, f, refuse).joined)
  {
    hide PduOf, Speaks, UFrame, EnterDisconnected, Meet, Relink, Redial, Reset;
    var pf := PduOf(f).upf;
    ResetsSay(c, f, pf);
    RedialsSay(c);
    LeaveSays(c, UA, pf, DmReceived);
    LeaveSays(c, UA, pf, Refused);
    ReplySays(c, pf);
    JoinSays(c);
  }

  lemma LiveSays(c: Conn, f: Frame)
    requires Live(c) && !PduOf(f).Unnum?
    ensures Spoken(c, HandleLive(c, f))
  {
    hide PduOf, Speaks, Supervised, RecoverySup, ConnectedInfo, RecoveryInfo, HandleNr, NrErrorRecovery, IsValidNr;
    RedialsSay(c);
    ReplySays(c, false);
    match PduOf(f)
    case Sup(k, nr, pf, command) =>
      HandleNrVoice(c, nr);
      SupervisedSays(HandleNr(c, nr), k, nr, pf, command);
      if IsValidNr(c.tx, nr) {
        if c.state == TimerRecovery { RecoverySupSays(c, k, nr, pf, command); }
      } else { Refuses(c, k, nr, pf, command, 0, []); }
    case Info(ns, nr, pf, payload) =>
      if IsValidNr(c.tx, nr) { InfoSays(c, ns, nr, pf, payload); } else { Refuses(c, RR, nr, pf, false, ns, payload); }
    case NoPdu =>
  }

  lemma Refuses(c: Conn, k: SupKind, nr: Seq8, pf: bool, command: bool, ns: Seq8, payload: seq<byte>)
    requires !IsValidNr(c.tx, nr)
    ensures ConnectedSup(c, k, nr, pf, command) == RecoverySup(c, k, nr, pf, command) == NrErrorRecovery(c)
    ensures ConnectedInfo(c, ns, nr, pf, payload) == RecoveryInfo(c, ns, nr, pf, payload) == NrErrorRecovery(c)
  {
    hide IsValidNr, NrErrorRecovery;
  }

  lemma FrameSays(c: Conn, f: Frame, refuse: bool)
    ensures Said(OnFrame(c, f, refuse), PathUsed(c, Arrive(f, refuse)))
  {
    hide PduOf, Speaks, Greet, HandleLive, Accepts;
    ReplySays(c, false);
    if !Accepts(c, f) {
    } else if c.state == Disconnected && PduOf(f).Unnum? && PduOf(f).ukind == SABM {
      GreetSays(c, f, PduOf(f).upf, refuse);
    } else if PduOf(f).Unnum? {
      UnnumSays(c, f, refuse);
      Joined(c, f, refuse);
    } else if Live(c) {
      LiveSays(c, f);
      Joined(c, f, refuse);
    }
  }

  /** Only the refusal of a call reports a call and leaves no session. */
  lemma Joined(c: Conn, f: Frame, refuse: bool)
    requires c.state == Disconnected ==> !(PduOf(f).Unnum? && PduOf(f).ukind == SABM)
    ensures var o := Dispatch(c, f, refuse); o.conn.state == Disconnected ==> !o.joined
  {
    hide PduOf, UFrame, Clear, HandleNr, SendPending, Prepared, Restarted, Receive, IsValidNr;
  }

  lemma T1Says(c: Conn)
    ensures Spoken(c, T1Expired(c)) && !T1Expired(c).joined
  {
    hide Speaks, UFrame, SFrame, EnterDisconnected;
    LeaveSays(c, DM, true, ConnectTimeout);
    LeaveSays(c, DM, true, ReleaseTimeout);
    ReplySays(c, true);
    AskSays(c);
    if Live(c) { PollSays(if c.state == Connected then c.(state := TimerRecovery, retry := 0) else c); }
  }

  lemma AskSays(c: Conn)
    ensures Said(AskAgain(c, SABM), c.peer.path) && Said(AskAgain(c, DISC), c.peer.path)
  {
    hide Formed, UFrame;
    UForms(c, AskAgain(c, SABM).conn, SABM, true);
    UForms(c, AskAgain(c, DISC).conn, DISC, true);
  }

  lemma PollSays(c: Conn)
    requires Live(c)
    ensures var o := PollPeer(c);
            Said(o, c.peer.path) && !o.joined && (o.conn.state == Disconnected || o.conn.peer == c.peer)
  {
    hide Formed, UFrame, SFrame, EnterDisconnected;
    LeaveSays(c, DM, true, LinkFailure);
    SForms(c, c.(retry := c.retry + 1, t1 := true), RR, true, true);
  }

  lemma T2Says(c: Conn, late: bool)
    ensures Spoken(c, OnT2(c, late)) && !OnT2(c, late).joined
  {
    hide Formed, Ack;
    var b := c.(t2 := c.t2 && late);
    if Live(c) { AckForms(b, b.(ackPending := false), false); }
  }

  lemma T3Says(c: Conn, late: bool)
    ensures Spoken(c, OnT3(c, late)) && !OnT3(c, late).joined
  {
    hide Formed, SFrame;
    var d := c.(t3 := c.t3 && late);
    SForms(d, d.(state := TimerRecovery, retry := 0, t1 := true), RR, true, true);
  }

  lemma DialSays(c: Conn, remote: Address, digis: seq<Address>)
    ensures Spoken(c, Connect(c, remote, digis)) && !Connect(c, remote, digis).joined
  {
    hide Formed, UFrame, Clear, SetPath;
    var d := Reset(SetPath(c.(peer := c.peer.(remote := remote, remoteSet := true)), digis));
    UForms(d, d.(state := AwaitingConnection, t1 := true), SABM, true);
  }

  lemma SendSays(c: Conn, data: seq<byte>)
    ensures Spoken(c, SendData(c, data)) && !SendData(c, data).joined
  {
    hide Speaks, SendPending, Enqueue, CanQueue;
    if Live(c) { SendPendingSpeaks(Queued(c, data)); }
    Silence(c, c.peer.path, []);
  }

  lemma HangupSays(c: Conn)
    ensures Spoken(c, Shutdown(c)) && !Shutdown(c).joined
  {
    hide Formed, UFrame;
    UForms(c, Shutdown(c).conn, DISC, true);
  }

  lemma BusySays(c: Conn, busy: bool)
    ensures Spoken(c, SetBusy(c, busy)) && !SetBusy(c, busy).joined
  {
    hide Formed, SFrame;
    var d := c.(localBusy := busy);
    if Live(c) { SForms(d, SetBusy(c, busy).conn, if busy then RNR else RR, false, false); }
  }

  /** Every frame of every step.  I frames are commands without P, within 256 bytes, and go only to a peer that is not
      busy; a command S frame is a poll with RR; any other S frame is a response, RNR if and only if this station is
      busy or else RR, unless it is a REJ; SABM and DISC are commands with P, UA and DM responses; all carry the
      addresses and the path of the session, and I and S frames the current V(R). */
  lemma StepSpeaks(c: Conn, e: Event)
    ensures Said(Step(c, e), PathUsed(c, e))
  {
    hide Speaks, T1Expired, OnT2, OnT3, Connect, SendData, Shutdown, SetBusy, OnFrame;
    match e
    case Arrive(f, refuse) => FrameSays(c, f, refuse);
    case T1(late) => T1Says(c.(t1 := c.t1 && late));
    case T2(late) => T2Says(c, late);
    case T3(late) => T3Says(c, late);
    case Dial(remote, digis) => DialSays(c, remote, digis);
    case Send(data) => SendSays(c, data);
    case Hangup => HangupSays(c);
    case Busy(busy) => BusySays(c, busy);
  }

  // ---- Whom a session talks to, and by which path -----------------------------------------------------------------

  /** The peer after a step.  A call names it, a SABM that is taken brings a path, and from DISCONNECTED its sender; the
      end of the session forgets the path; nothing else touches any of it. */
  function PeerAfter(c: Conn, e: Event): Peer {
    var p := c.peer;
    var over := p.(remoteSet := false, path := []);
    if e.Dial? && c.state == Disconnected && |e.digis| <= 8 then Peer(p.local, e.remote, true, NewPath(c, e.digis))
    else if e.Arrive? && Accepts(c, e.frame) && IsCall(e.frame) && c.state != AwaitingRelease then
      if c.state != Disconnected then p.(path := NewPath(c, e.frame.digipeaters))
      else if e.refuse then Peer(p.local, e.frame.source, false, [])
      else Peer(p.local, e.frame.source, true, NewPath(c, e.frame.digipeaters))
    else if c.state != Disconnected && Step(c, e).conn.state == Disconnected then over
    else p
  }

  predicate IsCall(f: Frame) { PduOf(f).Unnum? && PduOf(f).ukind == SABM }

  /** The peer is kept, or the section ends the session. */
  predicate PeerKept(c: Conn, d: Conn) {
    d.peer == if c.state != Disconnected && d.state == Disconnected then c.peer.(remoteSet := false, path := [])
        else c.peer
  }

  lemma CallPeers(c: Conn, f: Frame, pf: bool, refuse: bool)
    ensures Meet(c, f, pf).conn.peer == c.peer.(path := NewPath(c, f.digipeaters)) == Relink(c, f, pf).conn.peer
    ensures Greet(c, f, pf, refuse).conn.peer ==
            if refuse then Peer(c.peer.local, f.source, false, [])
            else Peer(c.peer.local, f.source, true, NewPath(c, f.digipeaters))
  {
    hide UFrame, Clear;
  }

  lemma FramePeer(c: Conn, f: Frame, refuse: bool)
    ensures OnFrame(c, f, refuse).conn.peer == PeerAfter(c, Arrive(f, refuse))
  {
    hide PduOf, Greet, Meet, Relink, HandleLive, Accepts, UFrame, Clear, NewPath;
    if Accepts(c, f) {
      if IsCall(f) {
        CallPeers(c, f, PduOf(f).upf, refuse);
        CallTaken(c, f, refuse);
      } else if Live(c) {
        LivePeer(c, f);
      } else {
        ClosedPeer(c, f, refuse);
      }
    }
  }

  lemma CallTaken(c: Conn, f: Frame, refuse: bool)
    requires IsCall(f)
    ensures var pf := PduOf(f).upf;
            Dispatch(c, f, refuse) ==
                match c.state
                case Disconnected => Greet(c, f, pf, refuse)
                case AwaitingConnection => Meet(c, f, pf)
                case AwaitingRelease => Outcome(c, [UFrame(c, DM, pf)], OK, false)
                case _ => Relink(c, f, pf)
  {
    hide PduOf, Greet, Meet, Relink, UFrame;
  }

  lemma ClosedPeer(c: Conn, f: Frame, refuse: bool)
    requires !Live(c) && !IsCall(f)
    ensures PeerKept(c, Dispatch(c, f, refuse).conn)
  {
    hide PduOf, UFrame, Clear;
  }

  lemma RedialPeer(c: Conn)
    ensures NrErrorRecovery(c).conn.peer == c.peer && NrErrorRecovery(c).conn.state == AwaitingConnection
  {
    hide UFrame, Clear;
  }

  lemma LiveUnnumPeer(c: Conn, f: Frame, k: UnnumKind, pf: bool)
    requires Live(c) && k != SABM
    ensures PeerKept(c, LiveUnnum(c, f, k, pf).conn)
  {
    hide UFrame, EnterDisconnected, Clear;
    OverPeer(c);
  }

  lemma LivePeer(c: Conn, f: Frame)
    requires Live(c) && !IsCall(f)
    ensures PeerKept(c, HandleLive(c, f).conn)
  {
    hide PduOf, Supervised, RecoverySup, ConnectedInfo, RecoveryInfo, HandleNr, LiveUnnum, NrErrorRecovery, IsValidNr,
        Said;
    RedialPeer(c);
    match PduOf(f)
    case Unnum(k, pf) => LiveUnnumPeer(c, f, k, pf);
    case Sup(k, nr, pf, command) =>
      HandleNrVoice(c, nr);
      SupervisedSays(HandleNr(c, nr), k, nr, pf, command);
      if IsValidNr(c.tx, nr) {
        if c.state == TimerRecovery { RecoverySupSays(c, k, nr, pf, command); }
      } else { Refuses(c, k, nr, pf, command, 0, []); }
    case Info(ns, nr, pf, payload) =>
      if IsValidNr(c.tx, nr) { InfoSays(c, ns, nr, pf, payload); } else { Refuses(c, RR, nr, pf, false, ns, payload); }
    case NoPdu =>
  }

  lemma OtherPeer(c: Conn, e: Event)
    requires !e.Arrive? && !e.Dial?
    ensures PeerKept(c, Step(c, e).conn)
  {
    hide T1Expired, SendData, OnT2, OnT3, Shutdown, SetBusy;
    match e
    case T1(late) => T1Peer(c.(t1 := c.t1 && late));
    case Send(data) => SendPeer(c, data);
    case T2(late) => TimersPeer(c, late);
    case T3(late) => TimersPeer(c, late);
    case Hangup => HangupPeer(c);
    case Busy(busy) => BusyPeer(c, busy);
  }

  lemma T1Peer(c: Conn)
    ensures PeerKept(c, T1Expired(c).conn)
  {
    hide T1Expired, PollPeer;
    if c.state == Connected { PollPeers(c.(state := TimerRecovery, retry := 0)); T1FromLive(c); }
    else if c.state == TimerRecovery { PollPeers(c); T1FromLive(c); }
    else { AskPeer(c); }
  }

  lemma T1FromLive(c: Conn)
    requires Live(c)
    ensures T1Expired(c) == PollPeer(if c.state == Connected then c.(state := TimerRecovery, retry := 0) else c)
  {
    hide PollPeer;
  }

  lemma AskPeer(c: Conn)
    requires !Live(c)
    ensures PeerKept(c, T1Expired(c).conn)
  {
    hide UFrame, EnterDisconnected;
    OverPeer(c);
  }

  lemma OverPeer(c: Conn)
    ensures var d := EnterDisconnected(c).0;
            d.peer == c.peer.(remoteSet := false, path := []) && d.state == Disconnected
  {
    hide Clear;
  }

  lemma PollPeers(c: Conn)
    requires c.state != Disconnected
    ensures PeerKept(c, PollPeer(c).conn)
  {
    hide UFrame, SFrame, EnterDisconnected;
    OverPeer(c);
  }

  lemma SendPeer(c: Conn, data: seq<byte>)
    ensures PeerKept(c, SendData(c, data).conn)
  {
    hide Enqueue, CanQueue, SendPending, Speaks;
    if Live(c) { SendPendingSpeaks(Queued(c, data)); }
  }

  lemma TimersPeer(c: Conn, late: bool)
    ensures PeerKept(c, OnT2(c, late).conn) && PeerKept(c, OnT3(c, late).conn)
  {
    hide SFrame, Ack;
  }

  lemma HangupPeer(c: Conn)
    ensures PeerKept(c, Shutdown(c).conn)
  {
    hide UFrame;
  }

  lemma BusyPeer(c: Conn, busy: bool)
    ensures PeerKept(c, SetBusy(c, busy).conn)
  {
    hide SFrame;
  }

  /** Whom a session talks to, and by which path, after every step. */
  lemma StepPeer(c: Conn, e: Event)
    ensures Step(c, e).conn.peer == PeerAfter(c, e)
  {
    hide T1Expired, OnT2, OnT3, SendData, Shutdown, SetBusy, OnFrame, NewPath, Accepts, PduOf;
    match e
    case Arrive(f, refuse) => FramePeer(c, f, refuse);
    case Dial(remote, digis) => DialPeer(c, remote, digis);
    case _ => OtherPeer(c, e);
  }

  lemma DialPeer(c: Conn, remote: Address, digis: seq<Address>)
    ensures Connect(c, remote, digis).conn.peer == PeerAfter(c, Dial(remote, digis))
  {
    hide UFrame, Clear;
  }
}

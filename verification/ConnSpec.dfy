/** One connected-mode session as a value, and each locked section of the session handler
    as a function from the state before to the state after, the deferred actions and the
    result code.  The class in Connection.dfy carries the source's statements and is proved
    equal to these functions; ConnInvariants, ConnTimers and ConnSession prove what they mean. */
module ConnSpec {
  import opened Ax25Types
  import opened TxWindow

  datatype State = Disconnected | AwaitingConnection | AwaitingRelease | Connected | TimerRecovery

  /** `ax25_conn_init` replaces a window outside 1..7 by 4. */
  type Window = x: nat | 1 <= x <= 7 witness 4

  /** `peer` is the remote station and the path to it; `remoteSet` says whether a session has one. */
  datatype Peer = Peer(local: Address, remote: Address, remoteSet: bool, path: seq<Address>)

  datatype Config = Config(n2: nat, window: Window)

  datatype Conn = Conn(
    state: State, tx: Tx, vr: Seq8,
    peerBusy: bool, localBusy: bool, rejSent: bool, ackPending: bool, retry: nat,
    t1: bool, t2: bool, t3: bool,
    peer: Peer, cfg: Config)

  datatype Fault = ConnectTimeout | ReleaseTimeout | LinkFailure | Refused | DmReceived | FrmrReceived | BadNr

  datatype Action =
    | Transmit(frame: Frame)
    | Data(payload: seq<byte>)
    | Fail(fault: Fault, retries: nat)
    | Final
    | Disconnect
    | LinkReset

  /** `joined` is the on_connect notification, made before the deferred actions run. */
  datatype Outcome = Outcome(conn: Conn, out: seq<Action>, code: Code, joined: bool)

  predicate Live(c: Conn) { c.state == Connected || c.state == TimerRecovery }

  // ---- Frames ------------------------------------------------------------------------

  function Blank(c: Conn, isCommand: bool, t: FrameType, control: byte): Frame {
    Frame(c.peer.remote, c.peer.local, c.peer.path, isCommand, t, control, PID_NONE, [])
  }

  function UFrame(c: Conn, k: UnnumKind, pf: bool): (a: Action)
    requires !k.OtherU? && !k.FRMR?
    ensures a.Transmit?
  {
    Transmit(Blank(c, k.SABM? || k.DISC?, U, UnnumControl(k) + PfBit(pf)))
  }

  function SFrame(c: Conn, k: SupKind, pf: bool, isCommand: bool): (a: Action)
    requires !k.OtherS?
    ensures a.Transmit?
  {
    var mask := match k case RR => CTRL_RR case RNR => CTRL_RNR case REJ => CTRL_REJ;
    Transmit(Blank(c, isCommand, S, SControl(mask, c.vr, pf)))
  }

  function Ack(c: Conn, pf: bool, isCommand: bool): (a: Action)
    ensures a.Transmit?
  {
    SFrame(c, if c.localBusy then RNR else RR, pf, isCommand)
  }

  function IFrame(c: Conn, ns: Seq8, data: seq<byte>): (a: Action)
    ensures a.Transmit?
  {
    Transmit(Blank(c, true, I, IControl(ns, c.vr, false)).(payload := if 0 < |data| <= MAX_INFO_LEN then data else []))
  }

  function IFrames(c: Conn, todo: seq<Seq8>): (out: seq<Action>)
    ensures |out| == |todo|
    ensures forall i :: 0 <= i < |todo| ==> out[i] == IFrame(c, todo[i], c.tx.queue[todo[i]].data)
  {
    seq(|todo|, i requires 0 <= i < |todo| => IFrame(c, todo[i], c.tx.queue[todo[i]].data))
  }

  function Sent(c: Conn): seq<Seq8> { if c.peerBusy then [] else Unsent(c.tx.queue, c.tx.va, c.tx.vs) }

  /** `send_pending_i_frames`. */
  function SendPending(c: Conn): (Conn, seq<Action>) {
    if Sent(c) == [] then (c, [])
    else (c.(tx := MarkSent(c.tx), ackPending := false, t1 := true, t3 := false), IFrames(c, Sent(c)))
  }

  /** `handle_received_nr`. */
  function HandleNr(c: Conn, nr: Seq8): Conn {
    if !IsValidNr(c.tx, nr) then c
    else
      var c1 := c.(tx := Retire(c.tx, nr));
      if c.state != Connected then c1
      else if nr == c.tx.vs then c1.(t1 := false, t3 := true)
      else if nr != c.tx.va then c1.(t1 := true, t3 := false)
      else c1
  }

  // ---- Changing state ------------------------------------------------------------------

  function StopTimers(c: Conn): Conn { c.(t1 := false, t2 := false, t3 := false) }

  /** `reset_state_vars`. */
  function Reset(c: Conn): Conn {
    c.(tx := Clear(c.tx), vr := 0, peerBusy := false, localBusy := false, rejSent := false,
    ackPending := false, retry := 0)
  }

  /** `enter_disconnected_state`. */
  function EnterDisconnected(c: Conn): (Conn, seq<Action>) {
    (Reset(StopTimers(c)).(state := Disconnected, peer := c.peer.(remoteSet := false, path := [])),
     if c.state == Disconnected then [Final] else [Final, Disconnect])
  }

  function Leave(c: Conn, first: seq<Action>): Outcome {
    var (c1, out) := EnterDisconnected(c);
    Outcome(c1, first + out, OK, false)
  }

  function Quiet(c: Conn): Outcome { Outcome(c, [], OK, false) }

  function Refusal(c: Conn, code: Code): Outcome { Outcome(c, [], code, false) }

  function NormalPath(digis: seq<Address>): seq<Address> {
    seq(|digis|, i requires 0 <= i < |digis| => digis[i].(repeated := false, last := false))
  }

  /** `set_conn_path`: an over-long path is refused and the old one kept. */
  function SetPath(c: Conn, digis: seq<Address>): (r: Conn)
    ensures r == c.(peer := r.peer) && r.peer == c.peer.(path := r.peer.path)
  {
    if |digis| > MAX_DIGIPEATERS then c else c.(peer := c.peer.(path := NormalPath(digis)))
  }

  /** `start_nr_error_recovery`. */
  function NrErrorRecovery(c: Conn): Outcome {
    var c1 := Reset(StopTimers(c));
    Outcome(c1.(state := AwaitingConnection, t1 := true), [Fail(BadNr, c.retry), UFrame(c1, SABM, true)],
        InvalidResponse, false)
  }

  // ---- Incoming frames -------------------------------------------------------------------

  /** A SABM outside a session: `refuse` is whether the application calls `ax25_conn_refuse` inside on_connect. */
  function Greet(c: Conn, f: Frame, pf: bool, refuse: bool): Outcome {
    var c1 := SetPath(c.(peer := c.peer.(remote := f.source, remoteSet := true)), f.digipeaters);
    if refuse then Leave(c1, [UFrame(c1, DM, pf)]).(joined := true)
    else
      var c2 := Reset(c1);
      Outcome(c2.(state := Connected, t3 := true), [UFrame(c2, UA, pf)], OK, true)
  }

  function HandleDisconnected(c: Conn, f: Frame, refuse: bool): Outcome {
    match PduOf(f)
    case Unnum(SABM, pf) => Greet(c, f, pf, refuse)
    case Unnum(DISC, pf) => Outcome(c, [UFrame(c, DM, pf)], OK, false)
    case _ => Quiet(c)
  }

  /** A SABM that meets ours. */
  function Meet(c: Conn, f: Frame, pf: bool): Outcome {
    var c1 := Reset(SetPath(c, f.digipeaters));
    Outcome(c1.(t1 := false, state := Connected, t3 := true), [UFrame(c1, UA, pf)], OK, true)
  }

  function HandleAwaitingConnection(c: Conn, f: Frame): Outcome {
    match PduOf(f)
    case Unnum(UA, pf) =>
      if pf then Outcome(Reset(c.(t1 := false)).(state := Connected, t3 := true), [], OK, true) else Quiet(c)
    case Unnum(DM, _) => Leave(c, [Fail(Refused, c.retry)])
    case Unnum(SABM, pf) => Meet(c, f, pf)
    case Unnum(DISC, pf) => Outcome(c, [UFrame(c, DM, pf)], OK, false)
    case _ => Quiet(c)
  }

  function HandleAwaitingRelease(c: Conn, f: Frame): Outcome {
    match PduOf(f)
    case Unnum(UA, _) => Leave(c, [])
    case Unnum(DM, _) => Leave(c, [])
    case Unnum(SABM, pf) => Outcome(c, [UFrame(c, DM, pf)], OK, false)
    case Unnum(DISC, pf) => Leave(c, [UFrame(c, UA, pf)])
    case _ => Quiet(c)
  }

  /** A SABM inside a session. */
  function Relink(c: Conn, f: Frame, pf: bool): Outcome {
    var c1 := Reset(SetPath(c, f.digipeaters));
    Outcome(c1.(t1 := false, state := Connected, t3 := true),
            (if c.state == Connected then [LinkReset] else []) + [UFrame(c1, UA, pf)], OK, false)
  }

  /** A FRMR inside a session. */
  function Redial(c: Conn): Outcome {
    var c1 := Reset(c);
    Outcome(c1.(state := AwaitingConnection, t1 := true), [Fail(FrmrReceived, c.retry), UFrame(c1, SABM, true)], OK,
        false)
  }

  /** U frames in CONNECTED and TIMER_RECOVERY; only the former reports a link reset. */
  function LiveUnnum(c: Conn, f: Frame, k: UnnumKind, pf: bool): Outcome {
    match k
    case SABM => Relink(c, f, pf)
    case DISC => Leave(c, [UFrame(c, UA, pf)])
    case DM => Leave(c, [Fail(DmReceived, c.retry)])
    case FRMR => Redial(c)
    case UA => Quiet(c)
    case OtherU => Quiet(c)
  }

  function AckIfPolled(c: Conn, pf: bool, command: bool): seq<Action> {
    if pf && command then [Ack(c, true, false)] else []
  }

  function ConnectedSup(c: Conn, k: SupKind, nr: Seq8, pf: bool, command: bool): Outcome {
    if !IsValidNr(c.tx, nr) then NrErrorRecovery(c) else Supervised(HandleNr(c, nr), k, nr, pf, command)
  }

  /** What the kind of a valid S frame asks of a CONNECTED session. */
  function Supervised(c: Conn, k: SupKind, nr: Seq8, pf: bool, command: bool): Outcome {
    match k
    case RR => Resumed(c, c.tx, pf, command)
    case RNR =>
      var c1 := c.(peerBusy := true);
      Outcome(c1, AckIfPolled(c1, pf, command), OK, false)
    case REJ => Resumed(c, MarkUnsent(c.tx, nr), pf, command)
    case OtherS => Quiet(c)
  }

  /** The peer takes frames again; what `w` has untransmitted is sent, after the answer to a poll. */
  function Resumed(c: Conn, w: Tx, pf: bool, command: bool): Outcome {
    var c1 := c.(peerBusy := false);
    var (c2, frames) := SendPending(c1.(tx := w));
    Outcome(c2, AckIfPolled(c1, pf, command) + frames, OK, false)
  }

  /** The reply to an I frame that is in sequence: now if polled, otherwise after T2. */
  function AckSoon(c: Conn, pf: bool): (Conn, seq<Action>) {
    if pf then (c, [Ack(c, true, false)]) else (c.(ackPending := true, t2 := true), [])
  }

  /** The reply to an I frame that is out of sequence. */
  function RejectOnce(c: Conn, pf: bool): (Conn, seq<Action>) {
    if !c.rejSent then (c.(rejSent := true), [SFrame(c, REJ, pf, false)])
    else if pf then (c, [Ack(c, true, false)])
    else (c, [])
  }

  /** The receive side of an I frame: the new state, the delivery and the reply. */
  function Receive(c: Conn, ns: Seq8, pf: bool, payload: seq<byte>): (Conn, seq<Action>) {
    if ns != c.vr then RejectOnce(c, pf)
    else if c.localBusy then AckSoon(c, pf)
    else
      var (c1, ack) := AckSoon(c.(vr := Next(c.vr), rejSent := false), pf);
      (c1, (if |payload| > 0 then [Data(payload)] else []) + ack)
  }

  function ConnectedInfo(c: Conn, ns: Seq8, nr: Seq8, pf: bool, payload: seq<byte>): Outcome {
    if !IsValidNr(c.tx, nr) then NrErrorRecovery(c)
    else
      var c1 := HandleNr(c, nr).(peerBusy := false);
      var (c2, out) := Receive(c1, ns, pf, payload);
      var (c3, frames) := SendPending(if ns == c.vr then c2.(t3 := true) else c2);
      Outcome(c3, out + frames, OK, false)
  }

  /** A response with the F bit ends the recovery exchange and puts every outstanding frame up for retransmission. */
  function Recovered(c: Conn): Conn {
    c.(t1 := false, retry := 0, state := Connected,
    tx := if c.tx.va != c.tx.vs then MarkUnsent(c.tx, c.tx.va) else c.tx)
  }

  /** What the kind of an S frame says of the peer, and what REJ puts up for retransmission. */
  function Noted(c: Conn, k: SupKind, nr: Seq8): Conn {
    match k
    case RR => c.(peerBusy := false)
    case RNR => c.(peerBusy := true)
    case REJ => c.(peerBusy := false, tx := MarkUnsent(c.tx, nr))
    case OtherS => c
  }

  /** The state in which `RecoverySup` comes to its closing branch. */
  function Prepared(c: Conn, k: SupKind, nr: Seq8, final: bool): Conn {
    var c1 := HandleNr(c, nr);
    Noted(if final then Recovered(c1) else c1, k, nr)
  }

  /** The closing branch: idle, or retransmitting under T1. */
  function Restarted(d: Conn, again: bool): (Conn, seq<Action>) {
    if d.state == Connected && d.tx.va == d.tx.vs then (d.(t1 := false, t3 := true), [])
    else
      var e := if d.state == Connected then d.(t3 := false) else d;
      var (f, frames) := if again then SendPending(e) else (e, []);
      (if d.state == Connected then f.(t1 := true) else f, frames)
  }

  function RecoverySup(c: Conn, k: SupKind, nr: Seq8, pf: bool, command: bool): Outcome {
    if !IsValidNr(c.tx, nr) then NrErrorRecovery(c)
    else
      var final := pf && !command;
      var d := Prepared(c, k, nr, final);
      var ack := if k.OtherS? then [] else AckIfPolled(d, pf, command);
      var (e, frames) := Restarted(d, d.tx.va != d.tx.vs && (final || k.REJ?));
      Outcome(e, ack + frames, OK, false)
  }

  function RecoveryInfo(c: Conn, ns: Seq8, nr: Seq8, pf: bool, payload: seq<byte>): Outcome {
    if !IsValidNr(c.tx, nr) then NrErrorRecovery(c)
    else
      var (c2, out) := Receive(HandleNr(c, nr).(peerBusy := false), ns, pf, payload);
      Outcome(c2, out, OK, false)
  }

  function HandleLive(c: Conn, f: Frame): Outcome {
    match PduOf(f)
    case Unnum(k, pf) => LiveUnnum(c, f, k, pf)
    case Sup(k, nr, pf, command) =>
      if c.state == Connected then ConnectedSup(c, k, nr, pf, command) else RecoverySup(c, k, nr, pf, command)
    case Info(ns, nr, pf, payload) =>
      if c.state == Connected then ConnectedInfo(c, ns, nr, pf, payload) else RecoveryInfo(c, ns, nr, pf, payload)
    case NoPdu => Quiet(c)
  }

  /** The filters `ax25_conn_on_frame` applies before the state machine sees a frame. */
  predicate Accepts(c: Conn, f: Frame) {
    && f.ftype != UI
    && SameStation(f.destination, c.peer.local)
    && (forall i :: 0 <= i < |f.digipeaters| ==> f.digipeaters[i].repeated)
    && (c.peer.remoteSet && c.state != Disconnected ==> SameStation(f.source, c.peer.remote))
  }

  function Dispatch(c: Conn, f: Frame, refuse: bool): Outcome {
    match c.state
    case Disconnected => HandleDisconnected(c, f, refuse)
    case AwaitingConnection => HandleAwaitingConnection(c, f)
    case AwaitingRelease => HandleAwaitingRelease(c, f)
    case Connected => HandleLive(c, f)
    case TimerRecovery => HandleLive(c, f)
  }

  function OnFrame(c: Conn, f: Frame, refuse: bool): Outcome {
    if Accepts(c, f) then Dispatch(c, f, refuse) else Quiet(c)
  }

  // ---- Timer expiries ----------------------------------------------------------------------

  /** `late` says that the callback waited for the lock while another section re-armed its timer:
      the flag then keeps the value that section gave it. */
  function OnT1(c: Conn, late: bool): Outcome { T1Expired(c.(t1 := c.t1 && late)) }

  function AskAgain(c: Conn, k: UnnumKind): Outcome
    requires k == SABM || k == DISC
  {
    Outcome(c.(retry := c.retry + 1, t1 := true), [UFrame(c, k, true)], OK, false)
  }

  function T1Expired(c: Conn): Outcome {
    match c.state
    case Disconnected => Quiet(c)
    case AwaitingConnection =>
      if c.retry >= c.cfg.n2 then Leave(c, [Fail(ConnectTimeout, c.retry)]) else AskAgain(c, SABM)
    case AwaitingRelease =>
      if c.retry >= c.cfg.n2 then Leave(c, [Fail(ReleaseTimeout, c.retry)]) else AskAgain(c, DISC)
    case Connected => PollPeer(c.(state := TimerRecovery, retry := 0))
    case TimerRecovery => PollPeer(c)
  }

  function PollPeer(c: Conn): Outcome {
    if c.retry >= c.cfg.n2 then Leave(c, [Fail(LinkFailure, c.retry), UFrame(c, DM, true)])
    else Outcome(c.(retry := c.retry + 1, t1 := true), [SFrame(c, RR, true, true)], OK, false)
  }

  function OnT2(c0: Conn, late: bool): Outcome {
    var c := c0.(t2 := c0.t2 && late);
    if Live(c) && c.ackPending then Outcome(c.(ackPending := false), [Ack(c, false, false)], OK, false) else Quiet(c)
  }

  function OnT3(c0: Conn, late: bool): Outcome {
    var c := c0.(t3 := c0.t3 && late);
    if c.state == Connected then StartPoll(c) else Quiet(c)
  }

  function StartPoll(c: Conn): Outcome {
    Outcome(c.(state := TimerRecovery, retry := 0, t1 := true), [SFrame(c, RR, true, true)], OK, false)
  }

  // ---- The public calls ----------------------------------------------------------------------

  function Call(c: Conn, remote: Address, digis: seq<Address>): Outcome {
    var c1 := Reset(SetPath(c.(peer := c.peer.(remote := remote, remoteSet := true)), digis));
    Outcome(c1.(state := AwaitingConnection, t1 := true), [UFrame(c1, SABM, true)], OK, false)
  }

  function Connect(c: Conn, remote: Address, digis: seq<Address>): Outcome {
    if |digis| > MAX_DIGIPEATERS then Refusal(c, InvalidArg)
    else if c.state != Disconnected then Refusal(c, InvalidState)
    else Call(c, remote, digis)
  }

  /** The two refusals of `queue_i_frame`: a full window and an occupied slot. */
  predicate CanQueue(c: Conn) { Outstanding(c.tx) < c.cfg.window && !c.tx.queue[c.tx.vs].inUse }

  function Queued(c: Conn, data: seq<byte>): Conn { c.(tx := Enqueue(c.tx, data)) }

  function Flush(c: Conn): Outcome { Outcome(SendPending(c).0, SendPending(c).1, OK, false) }

  function SendData(c: Conn, data: seq<byte>): Outcome {
    if |data| == 0 then Refusal(c, InvalidArg)
    else if |data| > MAX_INFO_LEN then Refusal(c, InvalidSize)
    else if !Live(c) then Refusal(c, InvalidState)
    else if !CanQueue(c) then Refusal(c, NoMem)
    else Flush(Queued(c, data))
  }

  function Shutdown(c: Conn): Outcome {
    if c.state == Disconnected || c.state == AwaitingRelease then Quiet(c)
    else Outcome(StopTimers(c).(retry := 0, state := AwaitingRelease, t1 := true), [UFrame(c, DISC, true)], OK, false)
  }

  function BusyTold(c: Conn): Outcome {
    if c.localBusy then Outcome(c.(ackPending := false, t2 := false), [SFrame(c, RNR, false, false)], OK, false)
    else Outcome(c, [SFrame(c, RR, false, false)], OK, false)
  }

  function SetBusy(c: Conn, busy: bool): Outcome {
    if c.localBusy == busy then Quiet(c)
    else
      var c1 := c.(localBusy := busy);
      if Live(c) then BusyTold(c1) else Quiet(c1)
  }

  // ---- One atomic step ------------------------------------------------------------------------

  datatype Event =
    | Arrive(frame: Frame, refuse: bool)
    | T1(late1: bool)
    | T2(late2: bool)
    | T3(late3: bool)
    | Dial(remote: Address, digis: seq<Address>)
    | Send(data: seq<byte>)
    | Hangup
    | Busy(busy: bool)

  function Step(c: Conn, e: Event): Outcome {
    match e
    case Arrive(f, refuse) => OnFrame(c, f, refuse)
    case T1(late) => OnT1(c, late)
    case T2(late) => OnT2(c, late)
    case T3(late) => OnT3(c, late)
    case Dial(remote, digis) => Connect(c, remote, digis)
    case Send(data) => SendData(c, data)
    case Hangup => Shutdown(c)
    case Busy(busy) => SetBusy(c, busy)
  }

  const NOBODY: Address := Address([], 0, false, false)

  /** The state `ax25_conn_init` leaves. */
  function Init(local: Address, n2: nat, window: nat): Conn {
    Conn(Disconnected, Empty(), 0, false, false, false, false, 0, false, false, false,
         Peer(local, NOBODY, false, []), Config(n2, if 1 <= window <= 7 then window else 4))
  }

  /** Runs the events in order and collects every deferred action. */
  function Run(c: Conn, es: seq<Event>): (Conn, seq<Action>)
    decreases |es|
  {
    if es == [] then (c, [])
    else
      var o := Step(c, es[0]);
      var (c', out) := Run(o.conn, es[1..]);
      (c', o.out + out)
  }
}

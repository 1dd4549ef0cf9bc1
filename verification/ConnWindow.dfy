/** Which I frames a step sends: exactly the outstanding ones that are due, each once and in the order of the ring,
    and none to a busy peer. */
module ConnWindow {
  import opened Ax25Types
  import opened TxWindow
  import opened ConnSpec
  import opened ConnInvariants
  import opened ConnEffects
  import opened ConnSpeech
  import opened ConnAnswers
  import opened ConnTable
  import opened ConnFlow
  import opened ConnLife

  /** The N(S) of the I frames among the actions, in order. */
  function Numbers(out: seq<Action>): seq<Seq8> {
    if out == [] then []
    else
      (if out[0].Transmit? && PduOf(out[0].frame).Info? then [PduOf(out[0].frame).ns] else []) + Numbers(out[1..])
  }

  lemma {:induction false} NumbersAppend(a: seq<Action>, b: seq<Action>)
    ensures Numbers(a + b) == Numbers(a) + Numbers(b)
  {
    hide PduOf;
    if a == [] { assert a + b == b; } else { assert (a + b)[1..] == a[1..] + b; NumbersAppend(a[1..], b); }
  }

  lemma {:induction false} NoNumbers(out: seq<Action>)
    requires !SendsInfo(out)
    ensures Numbers(out) == []
  {
    hide PduOf;
    if out != [] {
      assert out[0] in out && forall a :: a in out[1..] ==> a in out;
      NoNumbers(out[1..]);
    }
  }

  lemma NumberOf(c: Conn, s: Seq8, data: seq<byte>)
    ensures PduOf(IFrame(c, s, data).frame).Info? && PduOf(IFrame(c, s, data).frame).ns == s
  {
    hide ExtractNr, HasPf, IdentifyType;
    IControlFields(s, c.vr, false);
  }

  lemma {:induction false} NumbersOf(c: Conn, todo: seq<Seq8>, out: seq<Action>)
    requires |out| == |todo| && forall i :: 0 <= i < |todo| ==> out[i] == IFrame(c, todo[i], c.tx.queue[todo[i]].data)
    ensures Numbers(out) == todo
  {
    hide PduOf, IFrame;
    if out != [] {
      NumberOf(c, todo[0], c.tx.queue[todo[0]].data);
      NumbersOf(c, todo[1..], out[1..]);
      assert todo == [todo[0]] + todo[1..];
    }
  }

  /** Exactly these numbers of [va, vs), each once and in ring order. */
  ghost predicate Lists(ns: seq<Seq8>, va: Seq8, due: iset<Seq8>) {
    && (forall s: Seq8 :: s in ns <==> s in due)
    && forall i, j :: 0 <= i < j < |ns| ==> Off(va, ns[i]) < Off(va, ns[j])
  }

  /** What has yet to be sent of a window. */
  ghost function Waiting(w: Tx): iset<Seq8> {
    iset s: Seq8 | Between(w.va, s, w.vs) && !w.queue[s].transmitted
  }

  ghost function None(): iset<Seq8> { iset{} }

  lemma PendingLists(c: Conn)
    requires TxInv(c.tx, c.cfg.window)
    ensures Lists(Numbers(SendPending(c).1), c.tx.va, if c.peerBusy then None() else Waiting(c.tx))
  {
    hide IFrame, Unsent, MarkSent;
    UnsentMembers(c.tx.queue, c.tx.va, c.tx.vs);
    NumbersOf(c, Sent(c), SendPending(c).1);
  }

  lemma ListsNone(out: seq<Action>, va: Seq8)
    requires !SendsInfo(out)
    ensures Lists(Numbers(out), va, None())
  {
    hide Numbers;
    NoNumbers(out);
  }

  lemma ListsAfter(ack: seq<Action>, out: seq<Action>, va: Seq8, due: iset<Seq8>)
    requires !SendsInfo(ack) && Lists(Numbers(out), va, due)
    ensures Lists(Numbers(ack + out), va, due)
  {
    hide Numbers, SendsInfo, Lists;
    NoNumbers(ack);
    NumbersAppend(ack, out);
    assert [] + Numbers(out) == Numbers(out);
  }

  // ---- What is due ------------------------------------------------------------------------------------------------

  /** The frames from N(R) on: all of them, or those that have not been sent. */
  ghost function From(c: Conn, nr: Seq8, all: bool): iset<Seq8> {
    iset s: Seq8 | Between(nr, s, c.tx.vs) && (all || !c.tx.queue[s].transmitted)
  }

  lemma RetiredWaits(c: Conn, nr: Seq8)
    requires TxInv(c.tx, c.cfg.window) && IsValidNr(c.tx, nr)
    ensures Waiting(Retire(c.tx, nr)) == From(c, nr, false) && Retire(c.tx, nr).va == nr
            && TxInv(Retire(c.tx, nr), c.cfg.window)
  {
    hide TxInv, InFlight, Backlog, Retire;
    RetireKeeps(c.tx, nr, c.cfg.window);
    RetireEnds(c.tx, nr);
  }

  lemma AllWait(c: Conn, nr: Seq8)
    requires TxInv(c.tx, c.cfg.window) && IsValidNr(c.tx, nr)
    ensures var w := MarkUnsent(Retire(c.tx, nr), nr);
            Waiting(w) == From(c, nr, true) && w.va == nr && TxInv(w, c.cfg.window)
  {
    hide TxInv, InFlight, Backlog, Retire;
    RetireKeeps(c.tx, nr, c.cfg.window);
    RetireEnds(c.tx, nr);
    MarkUnsentKeeps(Retire(c.tx, nr), nr, c.cfg.window);
  }

  lemma ResumedLists(c: Conn, w: Tx, pf: bool, command: bool)
    requires TxInv(w, c.cfg.window)
    ensures Lists(Numbers(Resumed(c, w, pf, command).out), w.va, Waiting(w))
  {
    hide SendPending, AckIfPolled, Numbers, Waiting, TxInv, Lists;
    var c1 := c.(peerBusy := false);
    PolledInfos(c1, pf, command);
    PendingLists(c1.(tx := w));
    ListsAfter(AckIfPolled(c1, pf, command), SendPending(c1.(tx := w)).1, w.va, Waiting(w));
  }

  lemma ConnectedSupLists(c: Conn, s: SupKind, nr: Seq8, pf: bool, command: bool)
    requires Inv(c) && c.state == Connected && IsValidNr(c.tx, nr)
    ensures Lists(Numbers(ConnectedSup(c, s, nr, pf, command).out), nr,
                  if s == RR || s == REJ then From(c, nr, s == REJ) else None())
  {
    hide TxInv, InFlight, Backlog, HandleNr, Resumed, AckIfPolled, Numbers, Waiting, From, Lists, IsValidNr, Retire,
        MarkUnsent, SendsInfo;
    HandleNrKeeps(c, nr);
    RetiredWaits(c, nr);
    AllWait(c, nr);
    var c1 := HandleNr(c, nr);
    ResumedLists(c1, c1.tx, pf, command);
    ResumedLists(c1, MarkUnsent(c1.tx, nr), pf, command);
    PolledInfos(c1.(peerBusy := true), pf, command);
    ListsNone(AckIfPolled(c1.(peerBusy := true), pf, command), nr);
    NoInfos();
    ListsNone([], nr);
  }

  lemma MarkedWaits(w: Tx, k: nat)
    requires TxInv(w, k)
    ensures var v := MarkUnsent(w, w.va);
            v.va == w.va && v.vs == w.vs && TxInv(v, k) && Waiting(v) == iset s: Seq8 | Between(w.va, s, w.vs)
  {
    hide TxInv, InFlight;
    MarkUnsentKeeps(w, w.va, k);
  }

  lemma PreparedWaits(c: Conn, s: SupKind, nr: Seq8, final: bool)
    requires Inv(c) && c.state == TimerRecovery && IsValidNr(c.tx, nr)
    ensures var d := Prepared(c, s, nr, final);
            && TxInv(d.tx, c.cfg.window) && d.cfg == c.cfg && d.tx.va == nr && d.tx.vs == c.tx.vs
            && d.peerBusy == SaidBusy(s, c.peerBusy) && d.state == (if final then Connected else TimerRecovery)
            && Waiting(d.tx) == From(c, nr, final || s == REJ)
  {
    hide TxInv, InFlight, Backlog, HandleNr, MarkUnsent, Waiting, Between, IsValidNr, FlagsOf;
    HandleNrKeeps(c, nr);
    RetiredWaits(c, nr);
    ConnFlow.HandleNrFlags(c, nr);
    MarkedWaits(Retire(c.tx, nr), c.cfg.window);
    MarkedWaits(MarkUnsent(Retire(c.tx, nr), nr), c.cfg.window);
    AllWait(c, nr);
    if nr == c.tx.vs { IdleWaits(c, nr); }
  }

  lemma IdleWaits(c: Conn, nr: Seq8)
    requires IsValidNr(c.tx, nr) && nr == c.tx.vs
    ensures From(c, nr, true) == None() == From(c, nr, false)
  {
  }

  lemma RestartedLists(d: Conn, again: bool)
    requires TxInv(d.tx, d.cfg.window) && (again ==> d.tx.va != d.tx.vs)
    ensures Lists(Numbers(Restarted(d, again).1), d.tx.va, if again && !d.peerBusy then Waiting(d.tx) else None())
  {
    hide TxInv, SendPending, Numbers, Waiting, Lists, SendsInfo;
    NoInfos();
    ListsNone([], d.tx.va);
    PendingLists(d);
    PendingLists(d.(t3 := false));
  }

  lemma RecoverySupLists(c: Conn, s: SupKind, nr: Seq8, pf: bool, command: bool)
    requires Inv(c) && c.state == TimerRecovery && IsValidNr(c.tx, nr)
    ensures Lists(Numbers(RecoverySup(c, s, nr, pf, command).out), nr,
                  if ((pf && !command) || s == REJ) && !SaidBusy(s, c.peerBusy) then From(c, nr, true) else None())
  {
    hide TxInv, Prepared, Restarted, AckIfPolled, Numbers, Waiting, From, Lists, IsValidNr, SendsInfo, Inv;
    var final := pf && !command;
    var d := Prepared(c, s, nr, final);
    var again := d.tx.va != d.tx.vs && (final || s.REJ?);
    var ack := if s.OtherS? then [] else AckIfPolled(d, pf, command);
    PreparedWaits(c, s, nr, final);
    RestartedLists(d, again);
    PolledInfos(d, pf, command);
    NoInfos();
    if nr == c.tx.vs { IdleWaits(c, nr); }
    ListsAfter(ack, Restarted(d, again).1, nr, if again && !d.peerBusy then Waiting(d.tx) else None());
  }

  lemma InfoLists(c: Conn, ns: Seq8, nr: Seq8, pf: bool, payload: seq<byte>)
    requires Inv(c) && Live(c) && IsValidNr(c.tx, nr)
    ensures Lists(Numbers(if c.state == Connected then ConnectedInfo(c, ns, nr, pf, payload).out
                          else RecoveryInfo(c, ns, nr, pf, payload).out), nr,
                  if c.state == Connected then From(c, nr, false) else None())
  {
    hide TxInv, InFlight, Backlog, HandleNr, Receive, SendPending, Numbers, Waiting, From, Lists, IsValidNr, SendsInfo;
    HandleNrKeeps(c, nr);
    RetiredWaits(c, nr);
    var c1 := HandleNr(c, nr).(peerBusy := false);
    ReceiveFlags(c1, ns, pf, payload);
    ConnInvariants.ReceiveKeeps(c1, ns, pf, payload);
    var (d, out) := Receive(c1, ns, pf, payload);
    ListsNone(out, nr);
    var e := if ns == c.vr then d.(t3 := true) else d;
    PendingLists(e);
    ListsAfter(out, SendPending(e).1, nr, Waiting(e.tx));
  }

  lemma SendLists(c: Conn, data: seq<byte>)
    requires Inv(c)
    ensures Lists(Numbers(SendData(c, data).out), c.tx.va,
                  if SendData(c, data).code == OK && !c.peerBusy then From(c, c.tx.va, false) + iset{c.tx.vs}
                  else None())
  {
    hide TxInv, InFlight, Backlog, SendPending, Numbers, Waiting, From, Lists, SendsInfo;
    NoInfos();
    ListsNone([], c.tx.va);
    if 0 < |data| <= MAX_INFO_LEN && Live(c) && CanQueue(c) {
      EnqueueKeeps(c.tx, data, c.cfg.window);
      QueuedWaits(c, data);
      PendingLists(Queued(c, data));
    }
  }

  lemma QueuedWaits(c: Conn, data: seq<byte>)
    requires TxInv(c.tx, c.cfg.window) && Outstanding(c.tx) < c.cfg.window
    ensures Waiting(Enqueue(c.tx, data)) == From(c, c.tx.va, false) + iset{c.tx.vs}
  {
  }

  // ---- Sections that send none ------------------------------------------------------------------------------------

  lemma NoInfoU(c: Conn, u: UnnumKind, pf: bool)
    requires !u.OtherU? && !u.FRMR?
    ensures !SendsInfo([UFrame(c, u, pf)])
  {
    hide UFrame, PduOf;
    UFrameDecodes(c, u, pf);
  }

  lemma NoFrames(out: seq<Action>)
    requires forall a :: a in out ==> !a.Transmit?
    ensures !SendsInfo(out)
  {
  }

  lemma LeaveNone(c: Conn, first: seq<Action>)
    requires !SendsInfo(first)
    ensures !SendsInfo(Leave(c, first).out)
  {
    hide Clear, SendsInfo;
    NoFrames(EnterDisconnected(c).1);
    InfoAppend(first, EnterDisconnected(c).1);
  }

  lemma ReportedNone(a: Action, u: Action)
    requires !a.Transmit? && !SendsInfo([u])
    ensures !SendsInfo([a, u])
  {
    hide SendsInfo;
    NoFrames([a]);
    InfoAppend([a], [u]);
    assert [a] + [u] == [a, u];
  }

  lemma RedialNone(c: Conn)
    ensures !SendsInfo(Redial(c).out) && !SendsInfo(NrErrorRecovery(c).out)
  {
    hide UFrame, Reset, SendsInfo;
    NoInfoU(Reset(c), SABM, true);
    NoInfoU(Reset(StopTimers(c)), SABM, true);
    ReportedNone(Fail(FrmrReceived, c.retry), UFrame(Reset(c), SABM, true));
    ReportedNone(Fail(BadNr, c.retry), UFrame(Reset(StopTimers(c)), SABM, true));
  }

  lemma UnnumNone(c: Conn, f: Frame, refuse: bool)
    requires PduOf(f).Unnum?
    ensures !SendsInfo(Dispatch(c, f, refuse).out)
  {
    hide PduOf, UFrame, Leave, Reset, SetPath, SendsInfo, Redial;
    var pf := PduOf(f).upf;
    var g := SetPath(c.(peer := c.peer.(remote := f.source, remoteSet := true)), f.digipeaters);
    var d := Reset(SetPath(c, f.digipeaters));
    NoInfos();
    NoInfoU(c, UA, pf);
    NoInfoU(c, DM, pf);
    NoInfoU(g, DM, pf);
    NoInfoU(Reset(g), UA, pf);
    NoInfoU(d, UA, pf);
    NoFrames([LinkReset]);
    InfoAppend([LinkReset], [UFrame(d, UA, pf)]);
    InfoAppend([], [UFrame(d, UA, pf)]);
    NoFrames([Fail(Refused, c.retry)]);
    NoFrames([Fail(DmReceived, c.retry)]);
    RedialNone(c);
    LeaveNone(c, []);
    LeaveNone(c, [UFrame(c, UA, pf)]);
    LeaveNone(g, [UFrame(g, DM, pf)]);
    LeaveNone(c, [Fail(Refused, c.retry)]);
    LeaveNone(c, [Fail(DmReceived, c.retry)]);
  }

  lemma T1None(c: Conn)
    ensures !SendsInfo(T1Expired(c).out)
  {
    hide T1Expired, SendsInfo, PollPeer;
    if Live(c) {
      T1FromLive(c);
      PollNone(if c.state == Connected then c.(state := TimerRecovery, retry := 0) else c);
    } else { AskNone(c); }
  }

  lemma AskNone(c: Conn)
    requires !Live(c)
    ensures !SendsInfo(T1Expired(c).out)
  {
    hide UFrame, Leave, SendsInfo;
    NoInfos();
    NoInfoU(c, SABM, true);
    NoInfoU(c, DISC, true);
    NoFrames([Fail(ConnectTimeout, c.retry)]);
    NoFrames([Fail(ReleaseTimeout, c.retry)]);
    LeaveNone(c, [Fail(ConnectTimeout, c.retry)]);
    LeaveNone(c, [Fail(ReleaseTimeout, c.retry)]);
  }

  lemma PollNone(c: Conn)
    ensures !SendsInfo(PollPeer(c).out)
  {
    hide UFrame, SFrame, Leave, SendsInfo;
    NoInfoS(c, RR, true, true);
    NoInfoU(c, DM, true);
    ReportedNone(Fail(LinkFailure, c.retry), UFrame(c, DM, true));
    LeaveNone(c, [Fail(LinkFailure, c.retry), UFrame(c, DM, true)]);
  }

  lemma OtherNone(c: Conn, e: Event)
    requires e.T2? || e.T3? || e.Dial? || e.Hangup? || e.Busy?
    ensures !SendsInfo(Step(c, e).out)
  {
    hide UFrame, SFrame, Ack, Reset, SetPath, SendsInfo;
    NoInfos();
    match e
    case T2(late) => NoInfoAck(c.(t2 := c.t2 && late), false);
    case T3(late) => NoInfoS(c.(t3 := c.t3 && late), RR, true, true);
    case Dial(remote, digis) =>
      NoInfoU(Reset(SetPath(c.(peer := c.peer.(remote := remote, remoteSet := true)), digis)), SABM, true);
    case Hangup => NoInfoU(c, DISC, true);
    case Busy(busy) =>
      NoInfoS(c.(localBusy := busy), RNR, false, false);
      NoInfoS(c.(localBusy := busy), RR, false, false);
  }

  // ---- Every step -------------------------------------------------------------------------------------------------

  /** The I frames a step has to send.  Data accepted goes out with whatever waits; an RR or an I frame in CONNECTED
      releases what waits; a REJ, and the answer to a poll, put everything outstanding on the air again; nothing goes
      to a busy peer, and nothing else sends an I frame. */
  ghost function Due(c: Conn, e: Event): iset<Seq8> {
    match e
    case Send(_) =>
      if Answer(c, e) == OK && !c.peerBusy then From(c, c.tx.va, false) + iset{c.tx.vs} else None()
    case Arrive(f, _) =>
      if !Heard(c, e) || !Live(c) then None()
      else
        (match PduOf(f)
         case Sup(s, nr, pf, command) =>
           if !GoodNr(c, nr) || SaidBusy(s, c.peerBusy) then None()
           else if s == REJ || (c.state == TimerRecovery && pf && !command) then From(c, nr, true)
           else if s == RR && c.state == Connected then From(c, nr, false)
           else None()
         case Info(_, nr, _, _) => if GoodNr(c, nr) && c.state == Connected then From(c, nr, false) else None()
         case _ => None())
    case _ => None()
  }

  /** Where the window begins after the step. */
  function Base(c: Conn, e: Event): Seq8 {
    if !Heard(c, e) then c.tx.va
    else match PduOf(e.frame)
      case Sup(_, nr, _, _) => nr
      case Info(_, nr, _, _) => nr
      case _ => c.tx.va
  }

  lemma LiveReleases(c: Conn, f: Frame, refuse: bool)
    requires Inv(c) && Live(c) && Accepts(c, f) && !PduOf(f).Unnum?
    ensures var e := Arrive(f, refuse); Lists(Numbers(HandleLive(c, f).out), Base(c, e), Due(c, e))
  {
    hide Inv, PduOf, Accepts, Numbers, Lists, ConnectedSup, RecoverySup, ConnectedInfo, RecoveryInfo, NrErrorRecovery,
        IsValidNr, GoodNr, From, None, SendsInfo;
    RedialNone(c);
    NoInfos();
    match PduOf(f)
    case Sup(s, nr, pf, command) =>
      GoodNrIs(c, nr);
      ListsNone(NrErrorRecovery(c).out, nr);
      if !IsValidNr(c.tx, nr) { Refuses(c, s, nr, pf, command, 0, []); }
      else if c.state == Connected { ConnectedSupLists(c, s, nr, pf, command); }
      else { RecoverySupLists(c, s, nr, pf, command); }
    case Info(ns, nr, pf, payload) =>
      GoodNrIs(c, nr);
      ListsNone(NrErrorRecovery(c).out, nr);
      if IsValidNr(c.tx, nr) { InfoLists(c, ns, nr, pf, payload); } else { Refuses(c, RR, nr, pf, false, ns, payload); }
    case NoPdu => ListsNone([], c.tx.va);
  }

  lemma FrameReleases(c: Conn, f: Frame, refuse: bool)
    requires Inv(c)
    ensures var e := Arrive(f, refuse); Lists(Numbers(OnFrame(c, f, refuse).out), Base(c, e), Due(c, e))
  {
    hide Inv, PduOf, Accepts, Numbers, Lists, HandleLive, Dispatch, GoodNr, From, None, SendsInfo;
    var e := Arrive(f, refuse);
    NoInfos();
    ListsNone([], Base(c, e));
    if Accepts(c, f) {
      if PduOf(f).Unnum? { UnnumNone(c, f, refuse); ListsNone(Dispatch(c, f, refuse).out, c.tx.va); }
      else if Live(c) { LiveReleases(c, f, refuse); DispatchLive(c, f, refuse); }
      else { ClosedSteady(c, f, refuse); }
    }
  }

  /** Exactly which I frames every step sends: those that are due, each once and in the order of the ring. */
  lemma StepReleases(c: Conn, e: Event)
    requires Inv(c)
    ensures Lists(Numbers(Step(c, e).out), Base(c, e), Due(c, e))
  {
    hide Inv, Numbers, Lists, OnFrame, OnT1, T1Expired, SendData, From, None, SendsInfo, PduOf, Accepts;
    match e
    case Arrive(f, refuse) => FrameReleases(c, f, refuse);
    case T1(late) => T1None(c.(t1 := c.t1 && late)); OnT1Out(c, late); ListsNone(OnT1(c, late).out, c.tx.va);
    case Send(data) => StepAnswers(c, e); SendLists(c, data);
    case _ => OtherNone(c, e); ListsNone(Step(c, e).out, c.tx.va);
  }

  lemma OnT1Out(c: Conn, late: bool)
    ensures OnT1(c, late).out == T1Expired(c.(t1 := c.t1 && late)).out
  {
    hide T1Expired;
  }

  // ---- What waits after a step ------------------------------------------------------------------------------------

  /** What has to be sent, now or later: what waits from the acknowledged number on, all of it after a REJ or an
      answer to a poll, and data just accepted. */
  ghost function Pool(c: Conn, e: Event): iset<Seq8> {
    match e
    case Send(_) => Waiting(c.tx) + if Answer(c, e) == OK then iset{c.tx.vs} else None()
    case Arrive(f, _) =>
      if !Heard(c, e) then Waiting(c.tx)
      else
        (match PduOf(f)
         case Sup(s, nr, pf, command) => From(c, nr, s == REJ || (c.state == TimerRecovery && pf && !command))
         case Info(_, nr, _, _) => From(c, nr, false)
         case _ => Waiting(c.tx))
    case _ => Waiting(c.tx)
  }

  lemma PendingLeaves(c: Conn)
    requires TxInv(c.tx, c.cfg.window)
    ensures Waiting(SendPending(c).0.tx) == if c.peerBusy then Waiting(c.tx) else None()
  {
    hide IFrames, Unsent;
    UnsentMembers(c.tx.queue, c.tx.va, c.tx.vs);
    assert Sent(c) == [] ==> forall s: Seq8 :: s !in Sent(c);
  }

  lemma ResumedLeaves(c: Conn, w: Tx, pf: bool, command: bool)
    requires TxInv(w, c.cfg.window)
    ensures Waiting(Resumed(c, w, pf, command).conn.tx) == None()
  {
    hide SendPending, AckIfPolled, Waiting, TxInv;
    PendingLeaves(c.(peerBusy := false, tx := w));
  }

  lemma ConnectedSupLeaves(c: Conn, s: SupKind, nr: Seq8, pf: bool, command: bool)
    requires Inv(c) && c.state == Connected && IsValidNr(c.tx, nr)
    ensures Waiting(ConnectedSup(c, s, nr, pf, command).conn.tx) ==
            if s == RR || s == REJ then None() else From(c, nr, false)
  {
    hide TxInv, InFlight, Backlog, HandleNr, Resumed, AckIfPolled, Waiting, From, IsValidNr, Retire, MarkUnsent;
    HandleNrKeeps(c, nr);
    RetiredWaits(c, nr);
    AllWait(c, nr);
    var c1 := HandleNr(c, nr);
    ResumedLeaves(c1, c1.tx, pf, command);
    ResumedLeaves(c1, MarkUnsent(c1.tx, nr), pf, command);
  }

  lemma RestartedLeaves(d: Conn, again: bool)
    requires TxInv(d.tx, d.cfg.window) && (again ==> d.tx.va != d.tx.vs)
    ensures Waiting(Restarted(d, again).0.tx) == if again && !d.peerBusy then None() else Waiting(d.tx)
  {
    hide TxInv, SendPending, Waiting;
    PendingLeaves(d);
    PendingLeaves(d.(t3 := false));
  }

  lemma RecoverySupLeaves(c: Conn, s: SupKind, nr: Seq8, pf: bool, command: bool)
    requires Inv(c) && c.state == TimerRecovery && IsValidNr(c.tx, nr)
    ensures var back := (pf && !command) || s == REJ;
            Waiting(RecoverySup(c, s, nr, pf, command).conn.tx) ==
                if back && !SaidBusy(s, c.peerBusy) then None() else From(c, nr, back)
  {
    hide TxInv, Prepared, Restarted, AckIfPolled, Waiting, From, IsValidNr, Inv, None;
    var final := pf && !command;
    var d := Prepared(c, s, nr, final);
    PreparedWaits(c, s, nr, final);
    RestartedLeaves(d, d.tx.va != d.tx.vs && (final || s.REJ?));
    if nr == c.tx.vs { IdleWaits(c, nr); }
  }

  lemma InfoLeaves(c: Conn, ns: Seq8, nr: Seq8, pf: bool, payload: seq<byte>)
    requires Inv(c) && Live(c) && IsValidNr(c.tx, nr)
    ensures Waiting(if c.state == Connected then ConnectedInfo(c, ns, nr, pf, payload).conn.tx
                    else RecoveryInfo(c, ns, nr, pf, payload).conn.tx) ==
            if c.state == Connected then None() else From(c, nr, false)
  {
    hide TxInv, InFlight, Backlog, HandleNr, Receive, SendPending, Waiting, From, IsValidNr;
    HandleNrKeeps(c, nr);
    RetiredWaits(c, nr);
    var c1 := HandleNr(c, nr).(peerBusy := false);
    ConnInvariants.ReceiveKeeps(c1, ns, pf, payload);
    var d := Receive(c1, ns, pf, payload).0;
    PendingLeaves(if ns == c.vr then d.(t3 := true) else d);
  }

  lemma SendLeaves(c: Conn, data: seq<byte>)
    requires Inv(c) && Live(c)
    ensures Waiting(SendData(c, data).conn.tx) ==
            if SendData(c, data).code != OK then Waiting(c.tx)
            else if c.peerBusy then From(c, c.tx.va, false) + iset{c.tx.vs} else None()
  {
    hide TxInv, InFlight, Backlog, SendPending, Waiting, From;
    if 0 < |data| <= MAX_INFO_LEN && CanQueue(c) {
      EnqueueKeeps(c.tx, data, c.cfg.window);
      QueuedWaits(c, data);
      PendingLeaves(Queued(c, data));
    }
  }

  lemma OtherLeaves(c: Conn, e: Event)
    requires Live(c) && Live(Step(c, e).conn) && !e.Arrive? && !e.Send?
    ensures Step(c, e).conn.tx == c.tx
  {
    hide OnT1, OnT2, OnT3, SetBusy, Shutdown;
    match e
    case T1(late) => T1Leaves(c, late);
    case Hangup => HangupGoes(c);
    case Dial(_, _) =>
    case _ => FlagsOnly(c, e);
  }

  lemma T1Leaves(c: Conn, late: bool)
    requires Live(c) && Live(OnT1(c, late).conn)
    ensures OnT1(c, late).conn.tx == c.tx
  {
    hide T1Expired, PollPeer;
    var b := c.(t1 := c.t1 && late);
    T1FromLive(b);
    PollLeaves(if c.state == Connected then b.(state := TimerRecovery, retry := 0) else b);
  }

  lemma PollLeaves(c: Conn)
    requires Live(PollPeer(c).conn)
    ensures PollPeer(c).conn.tx == c.tx
  {
    hide SFrame, UFrame, EnterDisconnected;
    OverPeer(c);
  }

  lemma FlagsOnly(c: Conn, e: Event)
    requires e.T2? || e.T3? || e.Busy?
    ensures Step(c, e).conn.tx == c.tx
  {
    hide SFrame, Ack;
  }

  lemma FromBase(c: Conn)
    ensures From(c, c.tx.va, false) == Waiting(c.tx)
  {
  }

  lemma LiveLeaves(c: Conn, f: Frame, refuse: bool)
    requires Inv(c) && Live(c) && Accepts(c, f) && Live(HandleLive(c, f).conn) && !IsCall(f)
    ensures var e := Arrive(f, refuse); Waiting(HandleLive(c, f).conn.tx) == Pool(c, e) - Due(c, e)
  {
    hide Inv, PduOf, Accepts, ConnectedSup, RecoverySup, ConnectedInfo, RecoveryInfo, NrErrorRecovery, LiveUnnum,
        IsValidNr, GoodNr, From, Waiting;
    RedialGoes(c);
    match PduOf(f)
    case Sup(s, nr, pf, command) =>
      GoodNrIs(c, nr);
      if !IsValidNr(c.tx, nr) { Refuses(c, s, nr, pf, command, 0, []); }
      else if c.state == Connected { ConnectedSupLeaves(c, s, nr, pf, command); }
      else { RecoverySupLeaves(c, s, nr, pf, command); }
    case Info(ns, nr, pf, payload) =>
      GoodNrIs(c, nr);
      if IsValidNr(c.tx, nr) { InfoLeaves(c, ns, nr, pf, payload); }
      else { Refuses(c, RR, nr, pf, false, ns, payload); }
    case Unnum(k, pf) => UnnumFlags(c, f, k, pf);
    case NoPdu =>
  }

  /** What waits after a step that keeps an open session open: what had to be sent and has not been. */
  lemma StepLeaves(c: Conn, e: Event)
    requires Inv(c) && Live(c) && Live(Step(c, e).conn) && !HearsU(c, e, SABM)
    ensures Waiting(Step(c, e).conn.tx) == Pool(c, e) - Due(c, e)
  {
    hide Inv, HandleLive, OnT1, OnT2, OnT3, SendData, SetBusy, Shutdown, From, Waiting, PduOf, Accepts, GoodNr;
    FromBase(c);
    match e
    case Arrive(f, refuse) => if Accepts(c, f) { LiveLeaves(c, f, refuse); }
    case Send(data) => StepAnswers(c, e); SendLeaves(c, data);
    case _ => OtherLeaves(c, e);
  }
}

/** The order of what a section does: reports and data first, then answers and polls, then I frames, the end last. */
module ConnOrder {
  import opened Ax25Types
  import opened TxWindow
  import opened ConnSpec
  import opened ConnEffects
  import opened ConnSpeech
  import opened ConnAnswers

  /** Reports and data come first, then answers and polls, then I frames, and the end last. */
  function Rank(a: Action): nat {
    match a
    case Fail(_, _) => 0
    case LinkReset => 0
    case Data(_) => 0
    case Transmit(f) => if PduOf(f).Info? then 2 else 1
    case Final => 3
    case Disconnect => 4
  }

  ghost predicate Sorted(out: seq<Action>, lo: nat, hi: nat) {
    && (forall a :: a in out ==> lo <= Rank(a) <= hi)
    && forall i, j :: 0 <= i < j < |out| ==> Rank(out[i]) <= Rank(out[j])
  }

  lemma SortedAppend(a: seq<Action>, b: seq<Action>, lo: nat, mid: nat, hi: nat)
    requires lo <= mid <= hi && Sorted(a, lo, mid) && Sorted(b, mid, hi)
    ensures Sorted(a + b, lo, hi)
  {
    hide Rank;
    forall i, j | 0 <= i < j < |a + b| ensures Rank((a + b)[i]) <= Rank((a + b)[j]) {
      assert (a + b)[i] in a + b && (a + b)[j] in a + b;
      if i < |a| && j >= |a| { assert (a + b)[i] == a[i] && a[i] in a && (a + b)[j] == b[j - |a|] && b[j - |a|] in b; }
      if i >= |a| { assert (a + b)[i] == b[i - |a|] && (a + b)[j] == b[j - |a|]; }
    }
  }

  lemma FrameRanks(c: Conn, u: UnnumKind, s: SupKind, pf: bool, command: bool)
    requires !u.OtherU? && !u.FRMR? && !s.OtherS?
    ensures Sorted([UFrame(c, u, pf)], 1, 1) && Sorted([SFrame(c, s, pf, command)], 1, 1)
            && Sorted([Ack(c, pf, command)], 1, 1)
  {
    hide PduOf, UFrame, SFrame;
    UFrameDecodes(c, u, pf);
    SFrameDecodes(c, s, pf, command);
    SFrameDecodes(c, RR, pf, command);
    SFrameDecodes(c, RNR, pf, command);
  }

  lemma NothingSorted(lo: nat, hi: nat)
    ensures Sorted([], lo, hi)
  {
  }

  lemma PendingSorted(c: Conn)
    ensures Sorted(SendPending(c).1, 2, 2)
  {
    hide PduOf, IFrame, Unsent, MarkSent;
    var out := SendPending(c).1;
    forall a | a in out ensures Rank(a) == 2 {
      var i :| 0 <= i < |out| && a == out[i];
      IsInfo(c, Sent(c)[i], c.tx.queue[Sent(c)[i]].data);
    }
    forall i | 0 <= i < |out| ensures Rank(out[i]) == 2 { assert out[i] in out; }
  }

  lemma LeaveSorted(c: Conn, first: seq<Action>)
    requires Sorted(first, 0, 3)
    ensures Sorted(Leave(c, first).out, 0, 4)
  {
    hide Clear, Rank;
    var end := EnterDisconnected(c).1;
    assert Sorted(end, 3, 4) by { EndSorted(c); }
    SortedAppend(first, end, 0, 3, 4);
  }

  lemma EndSorted(c: Conn)
    ensures Sorted(EnterDisconnected(c).1, 3, 4)
  {
    hide Clear;
  }

  lemma ReportSorted(fault: Fault, retries: nat, u: Action)
    requires Sorted([u], 1, 1)
    ensures Sorted([Fail(fault, retries), u], 0, 3) && Sorted([Fail(fault, retries), u], 0, 4)
            && Sorted([LinkReset] + [u], 0, 4)
  {
    assert u in [u];
  }

  lemma RedialSorted(c: Conn)
    ensures Sorted(Redial(c).out, 0, 4) && Sorted(NrErrorRecovery(c).out, 0, 4)
  {
    hide UFrame, Reset, Sorted;
    FrameRanks(Reset(c), SABM, RR, true, true);
    FrameRanks(Reset(StopTimers(c)), SABM, RR, true, true);
    ReportSorted(FrmrReceived, c.retry, UFrame(Reset(c), SABM, true));
    ReportSorted(BadNr, c.retry, UFrame(Reset(StopTimers(c)), SABM, true));
  }

  lemma PolledSorted(c: Conn, pf: bool, command: bool)
    ensures Sorted(AckIfPolled(c, pf, command), 1, 2)
  {
    hide Ack, Rank;
    FrameRanks(c, UA, RR, true, false);
  }

  lemma ResumedSorted(c: Conn, w: Tx, pf: bool, command: bool)
    ensures Sorted(Resumed(c, w, pf, command).out, 1, 2)
  {
    hide SendPending, AckIfPolled, Sorted;
    var c1 := c.(peerBusy := false);
    PolledSorted(c1, pf, command);
    PendingSorted(c1.(tx := w));
    SortedAppend(AckIfPolled(c1, pf, command), SendPending(c1.(tx := w)).1, 1, 2, 2);
  }

  lemma SupervisedSorted(c: Conn, s: SupKind, nr: Seq8, pf: bool, command: bool)
    ensures Sorted(Supervised(c, s, nr, pf, command).out, 1, 2)
  {
    hide Resumed, AckIfPolled, Sorted, MarkUnsent;
    ResumedSorted(c, c.tx, pf, command);
    ResumedSorted(c, MarkUnsent(c.tx, nr), pf, command);
    PolledSorted(c.(peerBusy := true), pf, command);
    NothingSorted(1, 2);
  }

  lemma RestartedSorted(d: Conn, again: bool)
    ensures Sorted(Restarted(d, again).1, 2, 2)
  {
    hide SendPending, Sorted;
    PendingSorted(d);
    PendingSorted(d.(t3 := false));
    NothingSorted(2, 2);
  }

  lemma RecoverySupSorted(c: Conn, s: SupKind, nr: Seq8, pf: bool, command: bool)
    requires IsValidNr(c.tx, nr)
    ensures Sorted(RecoverySup(c, s, nr, pf, command).out, 1, 2)
  {
    hide Prepared, Restarted, AckIfPolled, Sorted, IsValidNr;
    var final := pf && !command;
    var d := Prepared(c, s, nr, final);
    var again := d.tx.va != d.tx.vs && (final || s.REJ?);
    var ack := if s.OtherS? then [] else AckIfPolled(d, pf, command);
    PolledSorted(d, pf, command);
    NothingSorted(1, 2);
    RestartedSorted(d, again);
    SortedAppend(ack, Restarted(d, again).1, 1, 2, 2);
  }

  lemma ReceiveSorted(c: Conn, ns: Seq8, pf: bool, payload: seq<byte>)
    ensures Sorted(Receive(c, ns, pf, payload).1, 0, 2)
  {
    hide Ack, SFrame, Rank;
    var d := c.(vr := Next(c.vr), rejSent := false);
    FrameRanks(c, UA, RR, true, false);
    FrameRanks(d, UA, RR, true, false);
    FrameRanks(c, UA, REJ, pf, false);
    DataFirst(payload, Ack(d, true, false));
  }

  lemma DataFirst(payload: seq<byte>, ack: Action)
    requires Sorted([ack], 1, 1)
    ensures Sorted([Data(payload)] + [ack], 0, 2) && Sorted([Data(payload)] + [], 0, 2) && Sorted([] + [ack], 0, 2)
  {
    assert ack in [ack];
  }

  lemma InfoSorted(c: Conn, ns: Seq8, nr: Seq8, pf: bool, payload: seq<byte>)
    requires Live(c) && IsValidNr(c.tx, nr)
    ensures Sorted(if c.state == Connected then ConnectedInfo(c, ns, nr, pf, payload).out
                   else RecoveryInfo(c, ns, nr, pf, payload).out, 0, 2)
  {
    hide Receive, SendPending, HandleNr, Sorted, IsValidNr;
    HandleNrVoice(c, nr);
    var c1 := HandleNr(c, nr).(peerBusy := false);
    ReceiveSorted(c1, ns, pf, payload);
    var (d, out) := Receive(c1, ns, pf, payload);
    var e := if ns == c.vr then d.(t3 := true) else d;
    PendingSorted(e);
    SortedAppend(out, SendPending(e).1, 0, 2, 2);
  }

  lemma UnnumSorted(c: Conn, f: Frame, refuse: bool)
    requires PduOf(f).Unnum?
    ensures Sorted(Dispatch(c, f, refuse).out, 0, 4)
  {
    hide PduOf, UFrame, Leave, Reset, SetPath, Sorted, Redial;
    var pf := PduOf(f).upf;
    var g := SetPath(c.(peer := c.peer.(remote := f.source, remoteSet := true)), f.digipeaters);
    var d := Reset(SetPath(c, f.digipeaters));
    NothingSorted(0, 3);
    NothingSorted(0, 4);
    UnnumSortedOne(c, UA, pf);
    UnnumSortedOne(c, DM, pf);
    UnnumSortedOne(g, DM, pf);
    UnnumSortedOne(Reset(g), UA, pf);
    UnnumSortedOne(d, UA, pf);
    ReportSorted(Refused, c.retry, UFrame(d, UA, pf));
    assert [] + [UFrame(d, UA, pf)] == [UFrame(d, UA, pf)];
    FaultSorted(Refused, c.retry);
    FaultSorted(DmReceived, c.retry);
    RedialSorted(c);
    LeaveSorted(c, []);
    LeaveSorted(c, [UFrame(c, UA, pf)]);
    LeaveSorted(g, [UFrame(g, DM, pf)]);
    LeaveSorted(c, [Fail(Refused, c.retry)]);
    LeaveSorted(c, [Fail(DmReceived, c.retry)]);
  }

  lemma UnnumSortedOne(c: Conn, u: UnnumKind, pf: bool)
    requires !u.OtherU? && !u.FRMR?
    ensures Sorted([UFrame(c, u, pf)], 1, 1) && Sorted([UFrame(c, u, pf)], 0, 3) && Sorted([UFrame(c, u, pf)], 0, 4)
  {
    hide Rank, UFrame;
    FrameRanks(c, u, RR, pf, false);
  }

  lemma FaultSorted(fault: Fault, retries: nat)
    ensures Sorted([Fail(fault, retries)], 0, 3)
  {
  }

  lemma Widen(out: seq<Action>, lo: nat, hi: nat)
    requires Sorted(out, lo, hi) && hi <= 4
    ensures Sorted(out, 0, 4)
  {
    hide Rank;
  }

  lemma LiveSorted(c: Conn, f: Frame)
    requires Live(c) && !PduOf(f).Unnum?
    ensures Sorted(HandleLive(c, f).out, 0, 4)
  {
    hide PduOf, Supervised, RecoverySup, ConnectedInfo, RecoveryInfo, HandleNr, NrErrorRecovery, IsValidNr, Sorted;
    RedialSorted(c);
    NothingSorted(0, 4);
    match PduOf(f)
    case Sup(s, nr, pf, command) =>
      SupervisedSorted(HandleNr(c, nr), s, nr, pf, command);
      if !IsValidNr(c.tx, nr) { Refuses(c, s, nr, pf, command, 0, []); }
      else {
        RecoverySupSorted(c, s, nr, pf, command);
        Widen(HandleLive(c, f).out, 1, 2);
      }
    case Info(ns, nr, pf, payload) =>
      if IsValidNr(c.tx, nr) { InfoSorted(c, ns, nr, pf, payload); Widen(HandleLive(c, f).out, 0, 2); }
      else { Refuses(c, RR, nr, pf, false, ns, payload); }
    case NoPdu =>
  }

  lemma T1Sorted(c: Conn)
    ensures Sorted(T1Expired(c).out, 0, 4)
  {
    hide T1Expired, PollPeer, Sorted;
    if Live(c) {
      T1FromLive(c);
      PollSorted(if c.state == Connected then c.(state := TimerRecovery, retry := 0) else c);
    } else { AskSorted(c); }
  }

  lemma AskSorted(c: Conn)
    requires !Live(c)
    ensures Sorted(T1Expired(c).out, 0, 4)
  {
    hide UFrame, Leave, Sorted;
    NothingSorted(0, 4);
    UnnumSortedOne(c, SABM, true);
    UnnumSortedOne(c, DISC, true);
    FaultSorted(ConnectTimeout, c.retry);
    FaultSorted(ReleaseTimeout, c.retry);
    LeaveSorted(c, [Fail(ConnectTimeout, c.retry)]);
    LeaveSorted(c, [Fail(ReleaseTimeout, c.retry)]);
  }

  lemma PollSorted(c: Conn)
    ensures Sorted(PollPeer(c).out, 0, 4)
  {
    hide UFrame, SFrame, Leave, Sorted;
    FrameRanks(c, DM, RR, true, true);
    Widen([SFrame(c, RR, true, true)], 1, 1);
    ReportSorted(LinkFailure, c.retry, UFrame(c, DM, true));
    LeaveSorted(c, [Fail(LinkFailure, c.retry), UFrame(c, DM, true)]);
  }

  lemma OtherSorted(c: Conn, e: Event)
    requires !e.Arrive? && !e.T1?
    ensures Sorted(Step(c, e).out, 0, 4)
  {
    hide UFrame, SFrame, Ack, SendData, Reset, SetPath, Sorted;
    NothingSorted(0, 4);
    match e
    case Send(data) => SendSorted(c, data);
    case Dial(remote, digis) =>
      UnnumSortedOne(Reset(SetPath(c.(peer := c.peer.(remote := remote, remoteSet := true)), digis)), SABM, true);
    case Hangup => UnnumSortedOne(c, DISC, true);
    case Busy(busy) => BusySorted(c.(localBusy := busy), RNR, false); BusySorted(c.(localBusy := busy), RR, false);
    case T2(late) => AckSorted(c.(t2 := c.t2 && late));
    case T3(late) => BusySorted(c.(t3 := c.t3 && late), RR, true);
  }

  lemma SendSorted(c: Conn, data: seq<byte>)
    ensures Sorted(SendData(c, data).out, 0, 4)
  {
    hide SendPending, Enqueue, CanQueue, Sorted;
    NothingSorted(0, 4);
    PendingSorted(Queued(c, data));
    Widen(SendPending(Queued(c, data)).1, 2, 2);
  }

  lemma BusySorted(c: Conn, s: SupKind, poll: bool)
    requires !s.OtherS?
    ensures Sorted([SFrame(c, s, poll, poll)], 0, 4)
  {
    hide SFrame, Rank;
    FrameRanks(c, UA, s, poll, poll);
  }

  lemma AckSorted(c: Conn)
    ensures Sorted([Ack(c, false, false)], 0, 4)
  {
    hide Ack, Rank;
    FrameRanks(c, UA, RR, false, false);
  }

  /** In every section reports and data come before frames, answers and polls before I frames, and the end last. */
  lemma StepOrders(c: Conn, e: Event)
    ensures Sorted(Step(c, e).out, 0, 4)
  {
    hide Sorted, T1Expired, Dispatch, Accepts, PduOf, HandleLive;
    match e
    case Arrive(f, refuse) =>
      NothingSorted(0, 4);
      if PduOf(f).Unnum? { UnnumSorted(c, f, refuse); }
      else if Live(c) { DispatchLive(c, f, refuse); LiveSorted(c, f); }
      else { ClosedSteady(c, f, refuse); }
    case T1(late) => T1Sorted(c.(t1 := c.t1 && late));
    case _ => OtherSorted(c, e);
  }
}

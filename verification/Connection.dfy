/** The session handler in the source's own form: one object whose methods run inside its lock, update its fields
    and record what is to be sent or called back in a buffer of twelve deferred actions.  Each method is proved to
    do what its function in ConnSpec says; the buffer never fills. */
module Connection {
  import opened Ax25Types
  import opened TxWindow
  import opened ConnSpec
  import opened ConnInvariants

  const MAX_DEFERRED: nat := 12

  class Session {
    // Configuration and addresses
    const n2: nat
    const window: Window
    const local: Address
    var remote: Address
    var remoteSet: bool
    var path: seq<Address>

    // State
    var state: State
    var vs: Seq8
    var vr: Seq8
    var va: Seq8
    var peerBusy: bool
    var localBusy: bool
    var rejSent: bool
    var ackPending: bool
    var retry: nat

    /** The ring of pending I frames. */
    const txQueue: array<Slot>

    // Armed timers
    var t1: bool
    var t2: bool
    var t3: bool

    /** The deferred actions of the section being executed. */
    var deferred: seq<Action>

    ghost predicate Valid() { txQueue.Length == 8 }

    ghost function Snapshot(): Conn
      requires Valid()
      reads this, txQueue
    {
      Conn(state, Tx(va, vs, txQueue[..]), vr, peerBusy, localBusy, rejSent, ackPending, retry, t1, t2, t3,
           Peer(local, remote, remoteSet, path), Config(n2, window))
    }

    /** The section just executed did what `o` says. */
    ghost predicate Did(o: Outcome, code: Code, joined: bool)
      requires Valid()
      reads this, txQueue
    {
      Snapshot() == o.conn && deferred == o.out && code == o.code && joined == o.joined
    }

    /** `ax25_conn_init`. */
    constructor (local: Address, n2: nat, window: nat)
      ensures Valid() && fresh(txQueue) && deferred == []
      ensures Snapshot() == Init(local, n2, window)
    {
      this.local := local;
      this.n2 := n2;
      this.window := if window < 1 || window > 7 then 4 else window;
      txQueue := new Slot[8](_ => Slot([], 0, false, false));
      remote, remoteSet, path := NOBODY, false, [];
      state := Disconnected;
      vs, vr, va := 0, 0, 0;
      peerBusy, localBusy, rejSent, ackPending, retry := false, false, false, false, 0;
      t1, t2, t3 := false, false, false;
      deferred := [];
      new;
      assert txQueue[..] == Empty().queue;
    }

    // ---- Deferred actions -----------------------------------------------------------------------

    /** `defer_action`: false when the buffer is full. */
    method Defer(a: Action) returns (ok: bool)
      modifies this`deferred
      ensures ok <==> |old(deferred)| < MAX_DEFERRED
      ensures deferred == if ok then old(deferred) + [a] else old(deferred)
    {
      if |deferred| >= MAX_DEFERRED { return false; }
      deferred := deferred + [a];
      return true;
    }

    /** `send_frame_internal` with the addresses and the path of the session. */
    method SendFrame(isCommand: bool, t: FrameType, control: byte, payload: seq<byte>) returns (code: Code)
      requires Valid()
      modifies this`deferred
      ensures code == if |old(deferred)| < MAX_DEFERRED then OK else NoMem
      ensures code == OK ==>
              deferred == old(deferred) +
              [Transmit(Blank(Snapshot(), isCommand, t, control).(payload := payload))]
      ensures code != OK ==> deferred == old(deferred)
    {
      var ok := Defer(Transmit(Frame(remote, local, path, isCommand, t, control, PID_NONE, payload)));
      return if ok then OK else NoMem;
    }

    method SendU(k: UnnumKind, pf: bool) returns (code: Code)
      requires Valid() && !k.OtherU? && !k.FRMR? && |deferred| < MAX_DEFERRED
      modifies this`deferred
      ensures code == OK && deferred == old(deferred) + [UFrame(Snapshot(), k, pf)]
    {
      code := SendFrame(k.SABM? || k.DISC?, U, UnnumControl(k) + PfBit(pf), []);
    }

    method SendS(k: SupKind, pf: bool, isCommand: bool) returns (code: Code)
      requires Valid() && !k.OtherS? && |deferred| < MAX_DEFERRED
      modifies this`deferred
      ensures code == OK && deferred == old(deferred) + [SFrame(Snapshot(), k, pf, isCommand)]
    {
      var mask := match k case RR => CTRL_RR case RNR => CTRL_RNR case REJ => CTRL_REJ;
      code := SendFrame(isCommand, S, SControl(mask, vr, pf), []);
    }

    method SendAck(pf: bool, isCommand: bool) returns (code: Code)
      requires Valid() && |deferred| < MAX_DEFERRED
      modifies this`deferred
      ensures code == OK && deferred == old(deferred) + [Ack(Snapshot(), pf, isCommand)]
    {
      if localBusy { code := SendS(RNR, pf, isCommand); } else { code := SendS(RR, pf, isCommand); }
    }

    method SendRej(pf: bool, isCommand: bool) returns (code: Code)
      requires Valid() && |deferred| < MAX_DEFERRED
      modifies this`deferred, this`rejSent
      ensures code == OK && rejSent && deferred == old(deferred) + [SFrame(old(Snapshot()), REJ, pf, isCommand)]
    {
      code := SendS(REJ, pf, isCommand);
      rejSent := true;
    }

    method SendI(ns: Seq8, data: seq<byte>) returns (code: Code)
      requires Valid() && |deferred| < MAX_DEFERRED
      modifies this`deferred, this`ackPending
      ensures code == OK && !ackPending && deferred == old(deferred) + [IFrame(old(Snapshot()), ns, data)]
    {
      ackPending := false;
      code := SendFrame(true, I, IControl(ns, vr, false), if |data| > 0 && |data| <= MAX_INFO_LEN then data else []);
    }

    // ---- The ring ------------------------------------------------------------------------------------

    /** `send_pending_i_frames`. */
    method SendPendingIFrames() returns (code: Code)
      requires Valid() && |deferred| + |Sent(Snapshot())| <= MAX_DEFERRED
      modifies this`deferred, this`ackPending, this`t1, this`t3, txQueue
      ensures code == OK && Snapshot() == SendPending(old(Snapshot())).0
      ensures deferred == old(deferred) + SendPending(old(Snapshot())).1
    {
      hide MarkSent, IFrame, Unsent;
      if peerBusy { return OK; }
      ghost var w := Snapshot().tx;
      code := SendUnsent();
      MarkSentEnds(w);
      if Unsent(w.queue, va, vs) == [] { NothingUnsent(w); }
    }

    /** The body of the loop over the ring; c is the state in which the loop started. */
    method TransmitSlot(ghost c: Conn, s: Seq8) returns (code: Code)
      requires Valid() && |deferred| < MAX_DEFERRED
      requires c.peer == Peer(local, remote, remoteSet, path) && c.vr == vr
      modifies this`deferred, this`ackPending, this`t1, this`t3, txQueue
      ensures code == OK && !ackPending && t1 && !t3
      ensures txQueue[..] == old(txQueue[..])[s := old(txQueue[s]).(transmitted := true)]
      ensures deferred == old(deferred) + [IFrame(c, s, old(txQueue[s]).data)]
    {
      hide IFrame;
      IFrameAs(c, Snapshot(), s, txQueue[s].data);
      code := SendI(s, txQueue[s].data);
      if code == OK {
        txQueue[s] := txQueue[s].(transmitted := true);
        t1, t3 := true, false;
      }
    }

    /** The loop over the ring. */
    method SendUnsent() returns (code: Code)
      requires Valid() && |deferred| + |Unsent(txQueue[..], va, vs)| <= MAX_DEFERRED
      modifies this`deferred, this`ackPending, this`t1, this`t3, txQueue
      ensures code == OK && txQueue[..] == MarkSent(Tx(va, vs, old(txQueue[..]))).queue
      ensures var todo := Unsent(old(txQueue[..]), va, vs);
              && deferred == old(deferred) + IFrames(old(Snapshot()), todo)
              && if todo == [] then ackPending == old(ackPending) && t1 == old(t1) && t3 == old(t3)
                 else !ackPending && t1 && !t3
    {
      hide MarkSent, IFrame, IFrames, Unsent;
      ghost var c := Snapshot();
      ghost var q := c.tx.queue;
      ghost var todo := Unsent(q, va, vs);
      ghost var done: seq<Seq8> := [];
      var s: Seq8 := va;
      NothingMarked(q, va);
      assert IFrames(c, []) == [];
      while s != vs
        invariant Off(va, s) <= Off(va, vs)
        invariant todo == done + Unsent(q, s, vs)
        invariant txQueue[..] == MarkSent(Tx(va, s, q)).queue
        invariant deferred == old(deferred) + IFrames(c, done)
        invariant if done == [] then ackPending == c.ackPending && t1 == c.t1 && t3 == c.t3
                  else !ackPending && t1 && !t3
        decreases Off(s, vs)
      {
        ghost var next := done + [s];
        SlotStep(c, done, s);
        var slot := txQueue[s];
        assert slot == q[s];
        if slot.inUse && !slot.transmitted {
          var ret := TransmitSlot(c, s);
          if ret != OK { return ret; }
          done := next;
        }
        s := Next(s);
      }
      UnsentEnds(q, vs);
      return OK;
    }

    /** `handle_received_nr`. */
    method HandleReceivedNr(nr: Seq8)
      requires Valid()
      modifies this`va, this`t1, this`t3, txQueue
      ensures Snapshot() == HandleNr(old(Snapshot()), nr)
    {
      hide Retire, IsValidNr;
      ghost var w := Snapshot().tx;
      var progress := va != nr;
      if !IsValidNr(Tx(va, vs, txQueue[..]), nr) { return; }
      NothingRetired(w);
      while va != nr
        invariant Off(w.va, va) <= Off(w.va, nr)
        invariant txQueue[..] == Retire(w, va).queue
        invariant t1 == old(t1) && t3 == old(t3)
        decreases Off(va, nr)
      {
        RetireStep(w, va);
        txQueue[va] := txQueue[va].(inUse := false);
        va := Next(va);
      }
      RetireEnds(w, nr);
      if state == Connected {
        if va == vs { t1, t3 := false, true; }
        else if progress { t1, t3 := true, false; }
      }
    }

    /** The retransmission loops: frames from `a` on lose their transmitted mark. */
    method MarkUntransmitted(a: Seq8)
      requires Valid()
      modifies txQueue
      ensures Snapshot() == old(Snapshot()).(tx := MarkUnsent(old(Snapshot()).tx, a))
    {
      hide MarkUnsent;
      ghost var w := Snapshot().tx;
      var s: Seq8 := a;
      NothingUnmarked(w, a);
      while s != vs
        invariant Off(a, s) <= Off(a, vs)
        invariant txQueue[..] == MarkUnsent(Tx(w.va, s, w.queue), a).queue
        decreases Off(s, vs)
      {
        MarkUnsentStep(w, a, s);
        txQueue[s] := txQueue[s].(transmitted := false);
        s := Next(s);
      }
      MarkUnsentEnds(w, a);
    }

    /** `clear_tx_queue`. */
    method ClearTxQueue()
      requires Valid()
      modifies txQueue
      ensures txQueue[..] == Clear(old(Snapshot()).tx).queue
    {
      ghost var q := txQueue[..];
      for i := 0 to 8
        invariant forall s :: 0 <= s < i ==> txQueue[s] == Slot([], q[s].ns, false, false)
        invariant forall s :: i <= s < 8 ==> txQueue[s] == q[s]
      {
        txQueue[i] := Slot([], txQueue[i].ns, false, false);
      }
    }

    /** `queue_i_frame`. */
    method QueueIFrame(data: seq<byte>) returns (code: Code)
      requires Valid()
      modifies this`vs, txQueue
      ensures code == if CanQueue(old(Snapshot())) then OK else NoMem
      ensures Snapshot() == if code == OK then Queued(old(Snapshot()), data) else old(Snapshot())
    {
      if Off(va, vs) >= window { return NoMem; }
      if txQueue[vs].inUse { return NoMem; }
      txQueue[vs] := Slot(data, vs, true, false);
      vs := Next(vs);
      return OK;
    }

    // ---- Changing state ----------------------------------------------------------------------------------

    method StopAllTimers()
      requires Valid()
      modifies this`t1, this`t2, this`t3
      ensures Snapshot() == StopTimers(old(Snapshot()))
    {
      t1, t2, t3 := false, false, false;
    }

    /** `reset_state_vars`. */
    method ResetStateVars()
      requires Valid()
      modifies this`vs, this`vr, this`va, this`peerBusy, this`localBusy, this`rejSent, this`ackPending, this`retry,
          txQueue
      ensures Snapshot() == Reset(old(Snapshot()))
    {
      hide Clear;
      ClearTxQueue();
      vs, vr, va := 0, 0, 0;
      peerBusy, localBusy, rejSent, ackPending, retry := false, false, false, false, 0;
      ClearEnds(old(Snapshot()).tx);
    }

    /** `set_conn_path`. */
    method SetConnPath(digis: seq<Address>)
      requires Valid()
      modifies this`path
      ensures Snapshot() == SetPath(old(Snapshot()), digis)
    {
      if |digis| > MAX_DIGIPEATERS { return; }
      var p := [];
      for i := 0 to |digis|
        invariant p == NormalPath(digis[..i])
      {
        p := p + [digis[i].(repeated := false, last := false)];
        assert digis[..i + 1] == digis[..i] + [digis[i]];
      }
      assert digis[..|digis|] == digis;
      path := p;
    }

    /** `enter_disconnected_state`. */
    method EnterDisconnectedState()
      requires Valid() && |deferred| + 2 <= MAX_DEFERRED
      modifies this, txQueue
      ensures Snapshot() == EnterDisconnected(old(Snapshot())).0
      ensures deferred == old(deferred) + EnterDisconnected(old(Snapshot())).1
    {
      hide Clear;
      var wasConnected := state != Disconnected;
      StopAllTimers();
      ResetStateVars();
      state := Disconnected;
      remoteSet := false;
      path := [];
      var _ := Defer(Final);
      if wasConnected { var _ := Defer(Disconnect); }
    }

    /** `start_nr_error_recovery`. */
    method StartNrErrorRecovery() returns (code: Code)
      requires Valid() && deferred == []
      modifies this, txQueue
      ensures Did(NrErrorRecovery(old(Snapshot())), code, false)
    {
      hide Clear, UFrame;
      StopAllTimers();
      var _ := Defer(Fail(BadNr, retry));
      ResetStateVars();
      var _ := SendU(SABM, true);
      state := AwaitingConnection;
      t1 := true;
      return InvalidResponse;
    }

    // ---- Incoming frames --------------------------------------------------------------------------------

    /** Outside a session. */
    method OnFrameDisconnected(f: Frame, refuse: bool) returns (joined: bool)
      requires Valid() && state == Disconnected && deferred == []
      modifies this, txQueue
      ensures Did(HandleDisconnected(old(Snapshot()), f, refuse), OK, joined)
    {
      hide Reset, EnterDisconnected, Greet, PduOf, UFrame, UnnumControl, SetPath;
      var pdu := PduOf(f);
      if pdu.Unnum? && pdu.ukind == SABM {
        OnSabmDisconnected(f, pdu.upf, refuse);
        return true;
      }
      if pdu.Unnum? && pdu.ukind == DISC { var _ := SendU(DM, pdu.upf); }
      return false;
    }

    /** An incoming connection, refused or accepted. */
    method OnSabmDisconnected(f: Frame, pf: bool, refuse: bool)
      requires Valid() && state == Disconnected && deferred == []
      modifies this, txQueue
      ensures Did(Greet(old(Snapshot()), f, pf, refuse), OK, true)
    {
      hide Reset, EnterDisconnected, PduOf, UFrame, UnnumControl, SetPath;
      SetPeer(f);
      if refuse { Refuse(pf); } else { Accept(pf); }
    }

    method SetPeer(f: Frame)
      requires Valid()
      modifies this`remote, this`remoteSet, this`path
      ensures var c := old(Snapshot());
              Snapshot() == SetPath(c.(peer := c.peer.(remote := f.source, remoteSet := true)), f.digipeaters)
    {
      hide SetPath;
      remote := f.source;
      remoteSet := true;
      SetConnPath(f.digipeaters);
    }

    method Refuse(pf: bool)
      requires Valid() && deferred == []
      modifies this, txQueue
      ensures Did(Leave(old(Snapshot()), [UFrame(old(Snapshot()), DM, pf)]), OK, false)
    {
      hide EnterDisconnected, UFrame, UnnumControl;
      var _ := SendU(DM, pf);
      EnterDisconnectedState();
    }

    method Accept(pf: bool)
      requires Valid() && deferred == []
      modifies this, txQueue
      ensures var c2 := Reset(old(Snapshot()));
              Snapshot() == c2.(state := Connected, t3 := true)
              && deferred == [UFrame(c2, UA, pf)]
    {
      hide Reset, UFrame, UnnumControl;
      ResetStateVars();
      var _ := SendU(UA, pf);
      state := Connected;
      t3 := true;
    }

    method OnFrameAwaitingConnection(f: Frame) returns (joined: bool)
      requires Valid() && state == AwaitingConnection && deferred == []
      modifies this, txQueue
      ensures Did(HandleAwaitingConnection(old(Snapshot()), f), OK, joined)
    {
      hide Reset, EnterDisconnected, Meet, PduOf, UFrame, UnnumControl, SetPath;
      joined := false;
      var pdu := PduOf(f);
      if !pdu.Unnum? { return; }
      if pdu.ukind == UA {
        if pdu.upf {
          Joined();
          joined := true;
        }
      } else if pdu.ukind == DM {
        CloseWith(Fail(Refused, retry));
      } else if pdu.ukind == SABM {
        AnswerSabm(f, pdu.upf);
        joined := true;
      } else if pdu.ukind == DISC { var _ := SendU(DM, pdu.upf); }
    }

    /** The final UA that answers our SABM. */
    method Joined()
      requires Valid()
      modifies this, txQueue
      ensures Snapshot() == Reset(old(Snapshot()).(t1 := false)).(state := Connected, t3 := true)
              && deferred == old(deferred)
    {
      hide Reset;
      ghost var c := Snapshot();
      t1 := false;
      ResetStateVars();
      ghost var d := Snapshot();
      assert d == Reset(c.(t1 := false));
      state := Connected;
      t3 := true;
      assert Snapshot() == d.(state := Connected, t3 := true);
    }

    /** A SABM that meets ours. */
    method AnswerSabm(f: Frame, pf: bool)
      requires Valid() && deferred == []
      modifies this, txQueue
      ensures Did(Meet(old(Snapshot()), f, pf), OK, true)
    {
      hide Reset, UFrame, UnnumControl, SetPath;
      SetConnPath(f.digipeaters);
      Establish(pf);
    }

    method Establish(pf: bool)
      requires Valid() && |deferred| <= 1
      modifies this, txQueue
      ensures Snapshot() == Reset(old(Snapshot())).(t1 := false, state := Connected, t3 := true)
      ensures deferred == old(deferred) + [UFrame(Reset(old(Snapshot())), UA, pf)]
    {
      hide Reset, UFrame, UnnumControl;
      ResetStateVars();
      var _ := SendU(UA, pf);
      t1 := false;
      state := Connected;
      t3 := true;
    }

    /** Stops T1 and closes the session with `first` as the report or the reply. */
    method CloseWith(first: Action)
      requires Valid() && deferred == []
      modifies this, txQueue
      ensures Did(Leave(old(Snapshot()), [first]), OK, false)
    {
      hide Clear;
      t1 := false;
      var _ := Defer(first);
      EnterDisconnectedState();
    }

    method OnFrameAwaitingRelease(f: Frame)
      requires Valid() && state == AwaitingRelease && deferred == []
      modifies this, txQueue
      ensures Did(HandleAwaitingRelease(old(Snapshot()), f), OK, false)
    {
      hide EnterDisconnected, PduOf, UFrame, UnnumControl;
      var pdu := PduOf(f);
      if !pdu.Unnum? { return; }
      if pdu.ukind == UA || pdu.ukind == DM {
        Released();
      } else if pdu.ukind == SABM {
        var _ := SendU(DM, pdu.upf);
      } else if pdu.ukind == DISC {
        var _ := SendU(UA, pdu.upf);
        Released();
      }
    }

    method Released()
      requires Valid() && |deferred| <= 1
      modifies this, txQueue
      ensures Snapshot() == EnterDisconnected(old(Snapshot())).0
      ensures deferred == old(deferred) + EnterDisconnected(old(Snapshot())).1
    {
      hide Clear;
      t1 := false;
      EnterDisconnectedState();
    }

    /** U frames in CONNECTED and TIMER_RECOVERY. */
    method OnUnnumLive(f: Frame, k: UnnumKind, pf: bool)
      requires Valid() && (state == Connected || state == TimerRecovery) && deferred == []
      modifies this, txQueue
      ensures Did(LiveUnnum(old(Snapshot()), f, k, pf), OK, false)
    {
      hide Relink, Redial, EnterDisconnected, UFrame, UnnumControl;
      if k == SABM {
        ResetLink(f, pf);
      } else if k == DISC {
        var _ := SendU(UA, pf);
        EnterDisconnectedState();
      } else if k == DM {
        var _ := Defer(Fail(DmReceived, retry));
        EnterDisconnectedState();
      } else if k == FRMR {
        RestartLink();
      }
    }

    method ResetLink(f: Frame, pf: bool)
      requires Valid() && deferred == []
      modifies this, txQueue
      ensures Did(Relink(old(Snapshot()), f, pf), OK, false)
    {
      hide Reset, UFrame, UnnumControl, SetPath;
      if state == Connected { var _ := Defer(LinkReset); }
      SetConnPath(f.digipeaters);
      Establish(pf);
    }

    method RestartLink()
      requires Valid() && deferred == []
      modifies this, txQueue
      ensures Did(Redial(old(Snapshot())), OK, false)
    {
      hide Reset, UFrame, UnnumControl;
      var _ := Defer(Fail(FrmrReceived, retry));
      AskAnew();
    }

    method AskAnew()
      requires Valid() && |deferred| <= 1
      modifies this, txQueue
      ensures var c1 := Reset(old(Snapshot()));
              Snapshot() == c1.(state := AwaitingConnection, t1 := true)
                  && deferred == old(deferred) + [UFrame(c1, SABM, true)]
    {
      hide Reset, UFrame, UnnumControl;
      ResetStateVars();
      var _ := SendU(SABM, true);
      state := AwaitingConnection;
      t1 := true;
    }

    method AckPoll(pf: bool, command: bool)
      requires Valid() && |deferred| < MAX_DEFERRED
      modifies this`deferred
      ensures deferred == old(deferred) + AckIfPolled(Snapshot(), pf, command)
      ensures |deferred| <= |old(deferred)| + 1
    {
      if pf && command { var _ := SendAck(true, false); }
    }

    method OnSupConnected(k: SupKind, nr: Seq8, pf: bool, command: bool) returns (code: Code)
      requires Valid() && Inv(Snapshot()) && state == Connected && deferred == []
      modifies this, txQueue
      ensures Did(ConnectedSup(old(Snapshot()), k, nr, pf, command), code, false)
    {
      hide Inv, TxInv, HandleNr, Supervised, IsValidNr, NrErrorRecovery;
      ghost var c := Snapshot();
      if !IsValidNr(Tx(va, vs, txQueue[..]), nr) {
        code := StartNrErrorRecovery();
        return;
      }
      HandleNrKeeps(c, nr);
      HandleReceivedNr(nr);
      code := ActOnSup(k, nr, pf, command);
    }

    /** What the kind of a valid S frame asks for. */
    method ActOnSup(k: SupKind, nr: Seq8, pf: bool, command: bool) returns (code: Code)
      requires Valid() && TxInv(Snapshot().tx, window) && deferred == []
      modifies this, txQueue
      ensures Did(Supervised(old(Snapshot()), k, nr, pf, command), code, false)
    {
      hide TxInv, Resumed, MarkUnsent, AckIfPolled;
      code := OK;
      if k == RNR {
        peerBusy := true;
        AckPoll(pf, command);
      } else if k == RR {
        code := Resume(pf, command);
      } else if k == REJ {
        code := ResumeFrom(nr, pf, command);
      }
    }

    method Resume(pf: bool, command: bool) returns (code: Code)
      requires Valid() && TxInv(Snapshot().tx, window) && deferred == []
      modifies this, txQueue
      ensures Did(Resumed(old(Snapshot()), old(Snapshot()).tx, pf, command), code, false)
    {
      hide TxInv, SendPending, AckIfPolled;
      peerBusy := false;
      AckPoll(pf, command);
      code := SendIf(true);
    }

    method ResumeFrom(nr: Seq8, pf: bool, command: bool) returns (code: Code)
      requires Valid() && TxInv(Snapshot().tx, window) && deferred == []
      modifies this, txQueue
      ensures Did(Resumed(old(Snapshot()), MarkUnsent(old(Snapshot()).tx, nr), pf, command), code, false)
    {
      hide TxInv, SendPending, AckIfPolled, MarkUnsent;
      peerBusy := false;
      AckPoll(pf, command);
      code := GoBack(nr);
    }

    /** Retransmission from N(R) on. */
    method GoBack(nr: Seq8) returns (code: Code)
      requires Valid() && TxInv(Snapshot().tx, window) && |deferred| <= 1
      modifies this, txQueue
      ensures var c := old(Snapshot()).(tx := MarkUnsent(old(Snapshot()).tx, nr));
              code == OK && Snapshot() == SendPending(c).0 && deferred == old(deferred) + SendPending(c).1
    {
      hide TxInv, SendPending, MarkUnsent;
      MarkUnsentKeeps(Snapshot().tx, nr, window);
      MarkUntransmitted(nr);
      code := SendIf(true);
    }

    /** The receive side of an I frame. */
    method ReceiveI(ns: Seq8, pf: bool, payload: seq<byte>)
      requires Valid() && deferred == []
      modifies this`vr, this`rejSent, this`ackPending, this`t2, this`deferred
      ensures Snapshot() == ConnSpec.Receive(old(Snapshot()), ns, pf, payload).0
      ensures deferred == ConnSpec.Receive(old(Snapshot()), ns, pf, payload).1
    {
      hide AckSoon, RejectOnce;
      if ns == vr {
        if !localBusy {
          vr := Next(vr);
          rejSent := false;
          if |payload| > 0 { var _ := Defer(Data(payload)); }
        }
        AcknowledgeI(pf);
      } else { RejectI(pf); }
    }

    method AcknowledgeI(pf: bool)
      requires Valid() && |deferred| <= 1
      modifies this`ackPending, this`t2, this`deferred
      ensures Snapshot() == AckSoon(old(Snapshot()), pf).0 && deferred == old(deferred) + AckSoon(old(Snapshot()), pf).1
    {
      hide Ack;
      if pf { var _ := SendAck(true, false); }
      else { ackPending := true; t2 := true; }
    }

    method RejectI(pf: bool)
      requires Valid() && deferred == []
      modifies this`rejSent, this`deferred
      ensures Snapshot() == RejectOnce(old(Snapshot()), pf).0 && deferred == RejectOnce(old(Snapshot()), pf).1
    {
      hide Ack, SFrame;
      if !rejSent { var _ := SendRej(pf, false); }
      else if pf { var _ := SendAck(true, false); }
    }

    method OnInfoConnected(ns: Seq8, nr: Seq8, pf: bool, payload: seq<byte>) returns (code: Code)
      requires Valid() && Inv(Snapshot()) && state == Connected && deferred == []
      modifies this, txQueue
      ensures Did(ConnectedInfo(old(Snapshot()), ns, nr, pf, payload), code, false)
    {
      hide Inv, TxInv, SendPending, HandleNr, ConnSpec.Receive, IsValidNr, NrErrorRecovery;
      ghost var c := Snapshot();
      if !IsValidNr(Tx(va, vs, txQueue[..]), nr) {
        code := StartNrErrorRecovery();
        return;
      }
      HandleNrKeeps(c, nr);
      HandleReceivedNr(nr);
      peerBusy := false;
      var expected := ns == vr;
      ReceiveKeeps(Snapshot(), ns, pf, payload);
      ReceiveI(ns, pf, payload);
      code := CloseInfo(expected);
    }

    method CloseInfo(expected: bool) returns (code: Code)
      requires Valid() && TxInv(Snapshot().tx, window) && |deferred| <= 2
      modifies this, txQueue
      ensures var c := old(Snapshot());
              var d := if expected then c.(t3 := true) else c;
              code == OK && Snapshot() == SendPending(d).0 && deferred == old(deferred) + SendPending(d).1
    {
      hide TxInv, SendPending;
      if expected { t3 := true; }
      code := SendIf(true);
    }

    method OnInfoRecovery(ns: Seq8, nr: Seq8, pf: bool, payload: seq<byte>) returns (code: Code)
      requires Valid() && Inv(Snapshot()) && state == TimerRecovery && deferred == []
      modifies this, txQueue
      ensures Did(RecoveryInfo(old(Snapshot()), ns, nr, pf, payload), code, false)
    {
      hide Inv, HandleNr, ConnSpec.Receive, IsValidNr, NrErrorRecovery;
      if !IsValidNr(Tx(va, vs, txQueue[..]), nr) {
        code := StartNrErrorRecovery();
        return;
      }
      HandleReceivedNr(nr);
      peerBusy := false;
      ReceiveI(ns, pf, payload);
      code := OK;
    }

    method OnSupRecovery(k: SupKind, nr: Seq8, pf: bool, command: bool) returns (code: Code)
      requires Valid() && Inv(Snapshot()) && state == TimerRecovery && deferred == []
      modifies this, txQueue
      ensures Did(RecoverySup(old(Snapshot()), k, nr, pf, command), code, false)
    {
      hide Inv, TxInv, IsValidNr, NrErrorRecovery, Prepared, Restarted, AckIfPolled;
      ghost var c := Snapshot();
      if !IsValidNr(Tx(va, vs, txQueue[..]), nr) {
        code := StartNrErrorRecovery();
        return;
      }
      var final := pf && !command;
      var again := RecoveryExchange(k, nr, pf, command);
      PreparedKeeps(c, k, nr, final);
      code := CloseRecovery(again);
    }

    /** N(R), the F bit and the kind of frame. */
    method RecoveryExchange(k: SupKind, nr: Seq8, pf: bool, command: bool) returns (again: bool)
      requires Valid() && state == TimerRecovery && deferred == []
      requires IsValidNr(Tx(va, vs, txQueue[..]), nr)
      modifies this, txQueue
      ensures Snapshot() == Prepared(old(Snapshot()), k, nr, pf && !command)
      ensures deferred == if k.OtherS? then [] else AckIfPolled(Snapshot(), pf, command)
      ensures |deferred| <= 1
      ensures again <==> va != vs && ((pf && !command) || k.REJ?)
    {
      hide HandleNr, Recovered, Noted, AckIfPolled;
      HandleReceivedNr(nr);
      again := false;
      if pf && !command { again := EndExchange(); }
      NoteSup(k, nr, pf, command);
      if k == REJ { again := va != vs; }
    }

    /** The F bit ends the exchange. */
    method EndExchange() returns (again: bool)
      requires Valid()
      modifies this`t1, this`retry, this`state, txQueue
      ensures Snapshot() == Recovered(old(Snapshot()))
      ensures again <==> va != vs
    {
      hide MarkUnsent;
      t1 := false;
      retry := 0;
      state := Connected;
      again := va != vs;
      if again { MarkUntransmitted(va); }
    }

    method NoteSup(k: SupKind, nr: Seq8, pf: bool, command: bool)
      requires Valid() && deferred == []
      modifies this`peerBusy, this`deferred, txQueue
      ensures Snapshot() == Noted(old(Snapshot()), k, nr)
      ensures deferred == if k.OtherS? then [] else AckIfPolled(Snapshot(), pf, command)
      ensures |deferred| <= 1
    {
      hide MarkUnsent, SControl, PfBit;
      match k
      case RR => peerBusy := false; AckPoll(pf, command);
      case RNR => peerBusy := true; AckPoll(pf, command);
      case REJ =>
        peerBusy := false;
        AckPoll(pf, command);
        MarkUntransmitted(nr);
      case OtherS =>
    }

    /** The closing branch of the recovery handler. */
    method CloseRecovery(again: bool) returns (code: Code)
      requires Valid() && TxInv(Snapshot().tx, window) && |deferred| <= 1
      modifies this, txQueue
      ensures code == OK && Snapshot() == Restarted(old(Snapshot()), again).0
      ensures deferred == old(deferred) + Restarted(old(Snapshot()), again).1
    {
      hide TxInv, SendPending;
      if state != Connected { code := SendIf(again); return; }
      if va == vs {
        t1, t3 := false, true;
        return OK;
      }
      code := Retransmit(again);
    }

    method Retransmit(again: bool) returns (code: Code)
      requires Valid() && TxInv(Snapshot().tx, window) && |deferred| <= 1
      modifies this, txQueue
      ensures var e := old(Snapshot()).(t3 := false);
              code == OK && Snapshot() == (if again then SendPending(e).0 else e).(t1 := true) &&
              deferred == old(deferred) + if again then SendPending(e).1 else []
    {
      hide TxInv, SendPending;
      if again {
        code := ResendAll();
      } else {
        t1, t3 := true, false;
        code := OK;
      }
    }

    method ResendAll() returns (code: Code)
      requires Valid() && TxInv(Snapshot().tx, window) && |deferred| <= 1
      modifies this, txQueue
      ensures var e := old(Snapshot()).(t3 := false);
              code == OK && Snapshot() == SendPending(e).0.(t1 := true) && deferred == old(deferred) + SendPending(e).1
    {
      hide TxInv, SendPending;
      t3 := false;
      ghost var e := Snapshot();
      assert e == old(Snapshot()).(t3 := false);
      SentBound(e);
      code := SendPendingIFrames();
      assert Snapshot() == SendPending(e).0;
      t1 := true;
    }

    method SendIf(again: bool) returns (code: Code)
      requires Valid() && TxInv(Snapshot().tx, window) && |deferred| <= 2
      modifies this, txQueue
      ensures code == OK && Snapshot() == if again then SendPending(old(Snapshot())).0 else old(Snapshot())
      ensures deferred == old(deferred) + if again then SendPending(old(Snapshot())).1 else []
    {
      hide TxInv, SendPending, Sent;
      SentBound(Snapshot());
      if again { code := SendPendingIFrames(); } else { code := OK; }
    }

    method Dispatched(f: Frame, refuse: bool) returns (code: Code, joined: bool)
      requires Valid() && Inv(Snapshot()) && deferred == []
      modifies this, txQueue
      ensures Did(Dispatch(old(Snapshot()), f, refuse), code, joined)
    {
      hide Inv, PduOf, HandleDisconnected, HandleAwaitingConnection, HandleAwaitingRelease, LiveUnnum,
        ConnectedSup, RecoverySup, ConnectedInfo, RecoveryInfo;
      code, joined := OK, false;
      match state
      case Disconnected => joined := OnFrameDisconnected(f, refuse);
      case AwaitingConnection => joined := OnFrameAwaitingConnection(f);
      case AwaitingRelease => OnFrameAwaitingRelease(f);
      case Connected =>
        match PduOf(f) {
          case Unnum(k, pf) => OnUnnumLive(f, k, pf);
          case Sup(k, nr, pf, command) => code := OnSupConnected(k, nr, pf, command);
          case Info(ns, nr, pf, payload) => code := OnInfoConnected(ns, nr, pf, payload);
          case NoPdu =>
        }
      case TimerRecovery =>
        match PduOf(f) {
          case Unnum(k, pf) => OnUnnumLive(f, k, pf);
          case Sup(k, nr, pf, command) => code := OnSupRecovery(k, nr, pf, command);
          case Info(ns, nr, pf, payload) => code := OnInfoRecovery(ns, nr, pf, payload);
          case NoPdu =>
        }
    }

    // ---- The entry points: one locked section each ------------------------------------------------------------

    /** `ax25_conn_on_frame`. */
    method Arrives(f: Frame, refuse: bool) returns (code: Code, joined: bool)
      requires Valid() && Inv(Snapshot())
      modifies this, txQueue
      ensures Did(Step(old(Snapshot()), Arrive(f, refuse)), code, joined)
      ensures Inv(Snapshot())
    {
      hide Inv, Dispatch;
      StepKeeps(Snapshot(), Arrive(f, refuse));
      deferred := [];
      if f.ftype == UI || !SameStation(f.destination, local) { return OK, false; }
      for i := 0 to |f.digipeaters|
        invariant forall j :: 0 <= j < i ==> f.digipeaters[j].repeated
        invariant Snapshot() == old(Snapshot()) && deferred == []
      {
        if !f.digipeaters[i].repeated { return OK, false; }
      }
      if remoteSet && state != Disconnected && !SameStation(f.source, remote) { return OK, false; }
      code, joined := Dispatched(f, refuse);
    }

    method TimerT1(late: bool)
      requires Valid() && Inv(Snapshot())
      modifies this, txQueue
      ensures Did(Step(old(Snapshot()), T1(late)), OK, false)
      ensures Inv(Snapshot())
    {
      hide Inv, T1Expired;
      StepKeeps(Snapshot(), T1(late));
      deferred := [];
      t1 := t1 && late;
      RunT1();
    }

    method RunT1()
      requires Valid() && deferred == []
      modifies this, txQueue
      ensures Did(T1Expired(old(Snapshot())), OK, false)
    {
      hide Leave, AskAgain, PollPeer;
      match state
      case Disconnected =>
      case AwaitingConnection =>
        if retry >= n2 { CloseWith(Fail(ConnectTimeout, retry)); } else { Ask(SABM); }
      case AwaitingRelease =>
        if retry >= n2 { CloseWith(Fail(ReleaseTimeout, retry)); } else { Ask(DISC); }
      case Connected =>
        state := TimerRecovery;
        retry := 0;
        Poll();
      case TimerRecovery => Poll();
    }

    method Ask(k: UnnumKind)
      requires Valid() && deferred == [] && (k == SABM || k == DISC)
      modifies this`retry, this`t1, this`deferred
      ensures Did(AskAgain(old(Snapshot()), k), OK, false)
    {
      hide UnnumControl, PfBit;
      retry := retry + 1;
      var _ := SendU(k, true);
      t1 := true;
    }

    /** The TIMER_RECOVERY branch of the T1 callback, into which CONNECTED falls through. */
    method Poll()
      requires Valid() && deferred == []
      modifies this, txQueue
      ensures Did(PollPeer(old(Snapshot())), OK, false)
    {
      hide EnterDisconnected, UFrame, SFrame;
      if retry >= n2 {
        var _ := Defer(Fail(LinkFailure, retry));
        var _ := SendU(DM, true);
        EnterDisconnectedState();
      } else {
        PollAgain();
      }
    }

    method PollAgain()
      requires Valid() && deferred == []
      modifies this`retry, this`t1, this`deferred
      ensures var c := old(Snapshot());
              Snapshot() == c.(retry := c.retry + 1, t1 := true) && deferred == [SFrame(c, RR, true, true)]
    {
      hide SControl, PfBit;
      retry := retry + 1;
      var _ := SendS(RR, true, true);
      t1 := true;
    }

    method TimerT2(late: bool)
      requires Valid() && Inv(Snapshot())
      modifies this
      ensures Did(Step(old(Snapshot()), T2(late)), OK, false)
      ensures Inv(Snapshot())
    {
      hide Inv, OnT2;
      StepKeeps(Snapshot(), T2(late));
      deferred := [];
      RunT2(late);
    }

    method RunT2(late: bool)
      requires Valid() && deferred == []
      modifies this
      ensures Did(OnT2(old(Snapshot()), late), OK, false)
    {
      hide Ack;
      t2 := t2 && late;
      if state == Connected || state == TimerRecovery {
        if ackPending {
          var _ := SendAck(false, false);
          ackPending := false;
        }
      }
    }

    method TimerT3(late: bool)
      requires Valid() && Inv(Snapshot())
      modifies this
      ensures Did(Step(old(Snapshot()), T3(late)), OK, false)
      ensures Inv(Snapshot())
    {
      hide Inv, OnT3;
      StepKeeps(Snapshot(), T3(late));
      deferred := [];
      RunT3(late);
    }

    method PollIdle()
      requires Valid() && deferred == []
      modifies this
      ensures Did(StartPoll(old(Snapshot())), OK, false)
    {
      hide SFrame;
      var _ := SendS(RR, true, true);
      state := TimerRecovery;
      retry := 0;
      t1 := true;
    }

    method RunT3(late: bool)
      requires Valid() && deferred == []
      modifies this
      ensures Did(OnT3(old(Snapshot()), late), OK, false)
    {
      hide StartPoll;
      t3 := t3 && late;
      if state == Connected { PollIdle(); }
    }

    /** `ax25_conn_connect_via`. */
    method ConnectVia(remoteAddr: Address, digis: seq<Address>) returns (code: Code)
      requires Valid() && Inv(Snapshot())
      modifies this, txQueue
      ensures Did(Step(old(Snapshot()), Dial(remoteAddr, digis)), code, false)
      ensures Inv(Snapshot())
    {
      hide Inv, Call;
      StepKeeps(Snapshot(), Dial(remoteAddr, digis));
      deferred := [];
      if |digis| > MAX_DIGIPEATERS { return InvalidArg; }
      if state != Disconnected { return InvalidState; }
      code := StartCall(remoteAddr, digis);
    }

    method StartCall(remoteAddr: Address, digis: seq<Address>) returns (code: Code)
      requires Valid() && deferred == []
      modifies this, txQueue
      ensures Did(Call(old(Snapshot()), remoteAddr, digis), code, false)
    {
      hide Reset, UFrame, SetPath;
      remote := remoteAddr;
      remoteSet := true;
      SetConnPath(digis);
      code := AskToConnect();
    }

    method AskToConnect() returns (code: Code)
      requires Valid() && deferred == []
      modifies this, txQueue
      ensures var c1 := Reset(old(Snapshot())); Snapshot() == c1.(state := AwaitingConnection, t1 := true) &&
                                                deferred == [UFrame(c1, SABM, true)] && code == OK
    {
      hide Reset, UFrame;
      ghost var c := Snapshot();
      retry := 0;
      ResetStateVars();
      assert Snapshot() == Reset(c) by { ResetForgetsRetry(c, 0); }
      code := SendCall();
    }

    method SendCall() returns (code: Code)
      requires Valid() && deferred == []
      modifies this`deferred, this`state, this`t1
      ensures Snapshot() == old(Snapshot()).(state := AwaitingConnection, t1 := true)
      ensures deferred == [UFrame(old(Snapshot()), SABM, true)] && code == OK
    {
      hide UFrame;
      code := SendU(SABM, true);
      if code == OK {
        state := AwaitingConnection;
        t1 := true;
      }
    }

    /** `ax25_conn_send_data`. */
    method SendUserData(data: seq<byte>) returns (code: Code)
      requires Valid() && Inv(Snapshot())
      modifies this, txQueue
      ensures Did(Step(old(Snapshot()), Send(data)), code, false)
      ensures Inv(Snapshot())
    {
      hide Inv, TxInv, InFlight, Backlog, CanQueue, Enqueue, SendPending, Sent;
      ghost var c := Snapshot();
      StepKeeps(c, Send(data));
      deferred := [];
      if |data| == 0 { return InvalidArg; }
      if |data| > MAX_INFO_LEN { return InvalidSize; }
      if state != Connected && state != TimerRecovery { return InvalidState; }
      code := QueueIFrame(data);
      if code == OK {
        QueuedBound(c, data);
        code := SendPendingIFrames();
      }
    }

    /** `ax25_conn_shutdown`. */
    method BeginShutdown() returns (code: Code)
      requires Valid() && Inv(Snapshot())
      modifies this
      ensures Did(Step(old(Snapshot()), Hangup), code, false)
      ensures Inv(Snapshot())
    {
      hide Inv, Shutdown;
      StepKeeps(Snapshot(), Hangup);
      deferred := [];
      code := AskToRelease();
    }

    method AskToRelease() returns (code: Code)
      requires Valid() && deferred == []
      modifies this
      ensures Did(Shutdown(old(Snapshot())), code, false)
    {
      hide UnnumControl, PfBit;
      if state == Disconnected || state == AwaitingRelease { return OK; }
      StopAllTimers();
      retry := 0;
      code := SendU(DISC, true);
      if code == OK {
        state := AwaitingRelease;
        t1 := true;
      }
    }

    /** `ax25_conn_set_busy`. */
    method SetLocalBusy(busy: bool)
      requires Valid() && Inv(Snapshot())
      modifies this
      ensures Did(Step(old(Snapshot()), Busy(busy)), OK, false)
      ensures Inv(Snapshot())
    {
      hide Inv, SetBusy;
      StepKeeps(Snapshot(), Busy(busy));
      deferred := [];
      ChangeBusy(busy);
    }

    method TellBusy()
      requires Valid() && deferred == []
      modifies this
      ensures Did(BusyTold(old(Snapshot())), OK, false)
    {
      hide SControl, PfBit;
      if localBusy {
        ackPending := false;
        t2 := false;
        var _ := SendS(RNR, false, false);
      } else {
        var _ := SendS(RR, false, false);
      }
    }

    method ChangeBusy(busy: bool)
      requires Valid() && deferred == []
      modifies this
      ensures Did(SetBusy(old(Snapshot()), busy), OK, false)
    {
      hide BusyTold;
      if localBusy != busy {
        localBusy := busy;
        if state == Connected || state == TimerRecovery { TellBusy(); }
      }
    }
  }

  // ---- Room in the buffer ----------------------------------------------------------------------------------------

  lemma ResetForgetsRetry(c: Conn, retry: nat)
    ensures Reset(c.(retry := retry)) == Reset(c)
  {
    hide Clear;
  }

  lemma SentBound(c: Conn)
    requires TxInv(c.tx, c.cfg.window)
    ensures |Sent(c)| <= 7
  {
    hide TxInv, Backlog;
    UnsentIsBacklog(c.tx, c.cfg.window);
  }

  lemma QueuedBound(c: Conn, data: seq<byte>)
    requires Inv(c) && CanQueue(c) && 0 < |data| <= MAX_INFO_LEN
    ensures |Sent(Queued(c, data))| <= 7
  {
    hide TxInv, Enqueue;
    EnqueueKeeps(c.tx, data, c.cfg.window);
    SentBound(Queued(c, data));
  }

  // ---- Loop steps over the ring ------------------------------------------------------------------------------

  lemma NothingMarked(q: Ring, a: Seq8)
    ensures MarkSent(Tx(a, a, q)).queue == q
  {
  }

  lemma MarkSentStep(q: Ring, a: Seq8, s: Seq8)
    requires Off(a, s) < 7
    ensures var r := MarkSent(Tx(a, s, q)).queue;
            r[s] == q[s] && MarkSent(Tx(a, Next(s), q)).queue == if q[s].inUse then r[s := q[s].(transmitted := true)]
                else r
  {
  }

  lemma MarkSentEnds(w: Tx)
    ensures MarkSent(w) == Tx(w.va, w.vs, MarkSent(Tx(w.va, w.vs, w.queue)).queue)
  {
  }

  lemma UnsentStep(q: Ring, s: Seq8, e: Seq8)
    requires s != e
    ensures Unsent(q, s, e) == (if q[s].inUse && !q[s].transmitted then [s] else []) + Unsent(q, Next(s), e)
  {
  }

  /** What the loop of `SendUnsent` does with slot s. */
  lemma SlotStep(c: Conn, done: seq<Seq8>, s: Seq8)
    requires Off(c.tx.va, s) < 7 && s != c.tx.vs
    ensures var q, a, e := c.tx.queue, c.tx.va, c.tx.vs;
            var r := MarkSent(Tx(a, s, q)).queue;
            && r[s] == q[s]
            && if q[s].inUse && !q[s].transmitted then
                 && MarkSent(Tx(a, Next(s), q)).queue == r[s := q[s].(transmitted := true)]
                 && done + Unsent(q, s, e) == (done + [s]) + Unsent(q, Next(s), e)
                 && IFrames(c, done + [s]) == IFrames(c, done) + [IFrame(c, s, q[s].data)]
               else
                 MarkSent(Tx(a, Next(s), q)).queue == r && Unsent(q, s, e) == Unsent(q, Next(s), e)
  {
    hide MarkSent, IFrame, Unsent, IFrames;
    var q := c.tx.queue;
    var r := MarkSent(Tx(c.tx.va, s, q)).queue;
    MarkSentStep(q, c.tx.va, s);
    UnsentStep(q, s, c.tx.vs);
    IFramesAppend(c, done, s);
    assert r[s := r[s]] == r;
    assert done + ([s] + Unsent(q, Next(s), c.tx.vs)) == (done + [s]) + Unsent(q, Next(s), c.tx.vs);
  }

  lemma UnsentEnds(q: Ring, e: Seq8)
    ensures Unsent(q, e, e) == []
  {
  }

  lemma IFrameAs(c: Conn, d: Conn, ns: Seq8, data: seq<byte>)
    requires c.peer == d.peer && c.vr == d.vr
    ensures IFrame(c, ns, data) == IFrame(d, ns, data)
  {
  }

  lemma IFramesAppend(c: Conn, done: seq<Seq8>, s: Seq8)
    ensures IFrames(c, done + [s]) == IFrames(c, done) + [IFrame(c, s, c.tx.queue[s].data)]
  {
  }

  lemma NothingUnsent(w: Tx)
    requires Unsent(w.queue, w.va, w.vs) == []
    ensures MarkSent(w).queue == w.queue
  {
    UnsentMembers(w.queue, w.va, w.vs);
    forall x: Seq8 ensures MarkSent(w).queue[x] == w.queue[x] { assert x !in Unsent(w.queue, w.va, w.vs); }
  }

  lemma NothingRetired(w: Tx)
    ensures Retire(w, w.va).queue == w.queue
  {
  }

  lemma RetireStep(w: Tx, s: Seq8)
    requires Off(w.va, s) < 7
    ensures Retire(w, Next(s)).queue == Retire(w, s).queue[s := Retire(w, s).queue[s].(inUse := false)]
  {
  }

  lemma RetireEnds(w: Tx, nr: Seq8)
    ensures Retire(w, nr) == Tx(nr, w.vs, Retire(w, nr).queue)
  {
  }

  lemma NothingUnmarked(w: Tx, a: Seq8)
    ensures MarkUnsent(Tx(w.va, a, w.queue), a).queue == w.queue
  {
  }

  lemma MarkUnsentStep(w: Tx, a: Seq8, s: Seq8)
    requires Off(a, s) < 7
    ensures var r := MarkUnsent(Tx(w.va, s, w.queue), a).queue;
            MarkUnsent(Tx(w.va, Next(s), w.queue), a).queue == r[s := r[s].(transmitted := false)]
  {
  }

  lemma MarkUnsentEnds(w: Tx, a: Seq8)
    ensures MarkUnsent(w, a) == Tx(w.va, w.vs, MarkUnsent(Tx(w.va, w.vs, w.queue), a).queue)
  {
  }

  lemma ClearEnds(w: Tx)
    ensures Clear(w) == Tx(0, 0, Clear(w).queue)
  {
  }
}

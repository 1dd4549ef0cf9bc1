/** The way from a locked section to the channel.  A section only records its frames; they leave after the lock has
    been released, by two routes: sections on the timer task post to the one dispatcher queue, all others send for
    themselves. Frames of two sections can therefore leave in the opposite order; this is shown by a run that resets
    the link.  As long as no section has frames to send while frames of another route are still waiting, the station
    is the one of ConnSession, whose frames leave at once. */
module ConnRouting {
  import opened Ax25Types
  import opened TxWindow
  import opened ConnSpec
  import opened ConnInvariants
  import opened ConnEffects
  import opened ConnSession
  import opened ConnScenes
  import opened ConnDialling

  /** What a station has recorded and not yet sent: the dispatcher's queue, and a batch per sending task. */
  datatype Out = Out(shared: seq<Packet>, tasks: seq<seq<Packet>>)

  /** `sys` holds the two stations and what is on the air. */
  datatype Routed = Routed(sys: System, out0: Out, out1: Out)

  datatype Move = Do(act: Act) | DrainShared | DrainTask(i: nat)

  const NOTHING: Out := Out([], [])

  predicate OnTimerTask(e: Event) { e.T1? || e.T2? || e.T3? }

  function Put(out: Out, timer: bool, ps: seq<Packet>): Out {
    if ps == [] then out
    else if timer then out.(shared := out.shared + ps)
    else out.(tasks := out.tasks + [ps])
  }

  function Pending(out: Out): seq<Packet> { out.shared + Flatten(out.tasks) }

  // ---- Steps --------------------------------------------------------------------------------------------

  /** The section that event e runs at the first station. */
  function Section(r: Routed, e: Event, rest: seq<Packet>): Routed {
    var o := Step(r.sys.p0.conn, e);
    var x := Apply(r.sys.p0, e, o);
    Routed(System(x, r.sys.p1, r.sys.c01, rest), Put(r.out0, OnTimerTask(e), Emit(x, o.out)), r.out1)
  }

  function FirstMoves(r: Routed, m: Move): Routed {
    match m
    case Do(Local(e)) => Section(r, e, r.sys.c10)
    case Do(Receive(refuse)) =>
      if r.sys.c10 == [] then r else Section(r, Arrive(Relay(r.sys.c10[0].frame), refuse), r.sys.c10[1..])
    case Do(Lose(i)) => r.(sys := First(r.sys, Lose(i)))
    case DrainShared =>
      if r.out0.shared == [] then r
      else r.(sys := r.sys.(c01 := r.sys.c01 + [r.out0.shared[0]]), out0 := r.out0.(shared := r.out0.shared[1..]))
    case DrainTask(i) =>
      if i >= |r.out0.tasks| || r.out0.tasks[i] == [] then r
      else r.(sys := r.sys.(c01 := r.sys.c01 + [r.out0.tasks[i][0]]),
        out0 := r.out0.(tasks := r.out0.tasks[i := r.out0.tasks[i][1..]]))
  }

  function SwapRouted(r: Routed): Routed { Routed(Swap(r.sys), r.out1, r.out0) }

  function Moves(r: Routed, first: bool, m: Move): Routed {
    if first then FirstMoves(r, m) else SwapRouted(FirstMoves(SwapRouted(r), m))
  }

  function RunRouted(r: Routed, ms: seq<(bool, Move)>): Routed
    decreases |ms|
  {
    if ms == [] then r else RunRouted(Moves(r, ms[0].0, ms[0].1), ms[1..])
  }

  // ---- When frames leave in the order of their sections ------------------------------------------------

  predicate Drained(tasks: seq<seq<Packet>>) { forall i :: 0 <= i < |tasks| ==> tasks[i] == [] }

  /** A section may record these frames: nothing waits on another route. */
  predicate Orderly(out: Out, timer: bool, ps: seq<Packet>) {
    ps == [] || (Drained(out.tasks) && (timer || out.shared == []))
  }

  /** The move runs a section at the first station. */
  predicate RunsSection(r: Routed, m: Move) { m.Do? && (m.act.Local? || (m.act.Receive? && r.sys.c10 != [])) }

  function EventOf(r: Routed, m: Move): Event
    requires RunsSection(r, m)
  {
    match m.act
    case Local(e) => e
    case Receive(refuse) => Arrive(Relay(r.sys.c10[0].frame), refuse)
  }

  predicate OrderlyFirst(r: Routed, m: Move) {
    RunsSection(r, m) ==>
      var e := EventOf(r, m);
      var o := Step(r.sys.p0.conn, e);
      Orderly(r.out0, OnTimerTask(e), Emit(Apply(r.sys.p0, e, o), o.out))
  }

  predicate OrderlyMove(r: Routed, first: bool, m: Move) {
    if first then OrderlyFirst(r, m) else OrderlyFirst(SwapRouted(r), m)
  }

  ghost predicate OrderlyRun(r: Routed, ms: seq<(bool, Move)>)
    decreases |ms|
  {
    ms != [] ==> OrderlyMove(r, ms[0].0, ms[0].1) && OrderlyRun(Moves(r, ms[0].0, ms[0].1), ms[1..])
  }

  /** The condition of `ConnSession.Careful`, for the packets on the air. */
  ghost predicate CarefulRun(r: Routed, ms: seq<(bool, Move)>)
    decreases |ms|
  {
    ms != [] ==>
      && (ms[0].1.Do? ==> Allowed(r.sys, ms[0].0, ms[0].1.act))
      && CarefulRun(Moves(r, ms[0].0, ms[0].1), ms[1..])
  }

  // ---- The station of ConnSession ----------------------------------------------------------------------------

  /** Frames wait on one route only. */
  ghost predicate OneRoute(out: Out) {
    Drained(out.tasks) || (out.shared == [] && exists i :: 0 <= i < |out.tasks| && OnlyAt(out.tasks, i))
  }

  predicate OnlyAt(tasks: seq<seq<Packet>>, i: nat) { forall j :: 0 <= j < |tasks| && j != i ==> tasks[j] == [] }

  /** What waits is counted as on the air already. */
  function Abstract(r: Routed): System {
    r.sys.(c01 := r.sys.c01 + Pending(r.out0), c10 := r.sys.c10 + Pending(r.out1))
  }

  lemma {:induction false} FlattenDrained(tasks: seq<seq<Packet>>)
    requires Drained(tasks)
    ensures Flatten(tasks) == []
  {
    if tasks != [] { FlattenDrained(tasks[1..]); }
  }

  lemma {:induction false} FlattenOnly(tasks: seq<seq<Packet>>, i: nat)
    requires i < |tasks| && OnlyAt(tasks, i)
    ensures Flatten(tasks) == tasks[i]
  {
    if i == 0 {
      assert forall j :: 0 <= j < |tasks[1..]| ==> tasks[1..][j] == tasks[j + 1];
      FlattenDrained(tasks[1..]);
    } else {
      assert forall j :: 0 <= j < |tasks[1..]| ==> tasks[1..][j] == tasks[j + 1];
      FlattenOnly(tasks[1..], i - 1);
    }
  }

  lemma PutKeeps(out: Out, timer: bool, ps: seq<Packet>)
    requires OneRoute(out) && Orderly(out, timer, ps)
    ensures OneRoute(Put(out, timer, ps)) && Pending(Put(out, timer, ps)) == Pending(out) + ps
  {
    if ps != [] {
      FlattenDrained(out.tasks);
      if !timer {
        var tasks := out.tasks + [ps];
        assert OnlyAt(tasks, |out.tasks|);
        FlattenOnly(tasks, |out.tasks|);
      }
    }
  }

  lemma DrainKeeps(r: Routed, m: Move)
    requires OneRoute(r.out0) && !m.Do?
    ensures var t := FirstMoves(r, m);
            OneRoute(t.out0) && t.out1 == r.out1 && Abstract(t) == Abstract(r)
  {
    hide Pending;
    var t := FirstMoves(r, m);
    match m
    case DrainShared =>
      if r.out0.shared != [] {
        SharedDrains(r.out0);
        OldestFirst(r.sys.c01, Pending(r.out0), Pending(t.out0));
      }
    case DrainTask(i) =>
      if i < |r.out0.tasks| && r.out0.tasks[i] != [] {
        TaskDrains(r.out0, i);
        OldestFirst(r.sys.c01, Pending(r.out0), Pending(t.out0));
      }
  }

  lemma OldestFirst(air: seq<Packet>, before: seq<Packet>, after: seq<Packet>)
    requires before != [] && after == before[1..]
    ensures air + [before[0]] + after == air + before
  {
  }

  lemma SharedDrains(out: Out)
    requires OneRoute(out) && out.shared != []
    ensures var next := out.(shared := out.shared[1..]);
            OneRoute(next) && Pending(out) != [] && Pending(out)[0] == out.shared[0]
                && Pending(next) == Pending(out)[1..]
  {
    assert (out.shared + Flatten(out.tasks))[1..] == out.shared[1..] + Flatten(out.tasks);
  }

  lemma TaskDrains(out: Out, i: nat)
    requires OneRoute(out) && i < |out.tasks| && out.tasks[i] != []
    ensures var next := out.(tasks := out.tasks[i := out.tasks[i][1..]]);
            OneRoute(next) && Pending(out) != [] && Pending(out)[0] == out.tasks[i][0]
                && Pending(next) == Pending(out)[1..]
  {
    var next := out.(tasks := out.tasks[i := out.tasks[i][1..]]);
    assert OnlyAt(out.tasks, i) && out.shared == [];
    assert OnlyAt(next.tasks, i);
    FlattenOnly(out.tasks, i);
    FlattenOnly(next.tasks, i);
    assert [] + out.tasks[i] == out.tasks[i] && [] + next.tasks[i] == next.tasks[i];
  }

  /** The act of ConnSession that a move is: a section or a loss; draining, or taking from an empty channel, is none. */
  function ActOf(r: Routed, first: bool, m: Move): seq<(bool, Act)> {
    var ch := Inbound(r.sys, first).0;
    match m
    case Do(Local(e)) => [(first, Local(e))]
    case Do(Receive(refuse)) => if ch == [] then [] else [(first, Receive(refuse))]
    case Do(Lose(i)) => if i < |ch| then [(first, Lose(i))] else []
    case _ => []
  }

  function ActsOf(r: Routed, ms: seq<(bool, Move)>): seq<(bool, Act)>
    decreases |ms|
  {
    if ms == [] then [] else ActOf(r, ms[0].0, ms[0].1) + ActsOf(Moves(r, ms[0].0, ms[0].1), ms[1..])
  }

  lemma SectionRefines(r: Routed, e: Event, rest: seq<Packet>)
    requires OneRoute(r.out0)
    requires var o := Step(r.sys.p0.conn, e); Orderly(r.out0, OnTimerTask(e), Emit(Apply(r.sys.p0, e, o), o.out))
    ensures var t := Section(r, e, rest);
            OneRoute(t.out0) && t.out1 == r.out1 && Abstract(t) == Occurs(Abstract(r), e, rest + Pending(r.out1))
  {
    hide Step, Apply, Emit, OneRoute, Orderly, Pending;
    var o := Step(r.sys.p0.conn, e);
    var ps := Emit(Apply(r.sys.p0, e, o), o.out);
    PutKeeps(r.out0, OnTimerTask(e), ps);
    assert r.sys.c01 + (Pending(r.out0) + ps) == r.sys.c01 + Pending(r.out0) + ps;
  }

  lemma FirstRefines(r: Routed, m: Move)
    requires OneRoute(r.out0) && OrderlyFirst(r, m)
    ensures var t := FirstMoves(r, m);
            && OneRoute(t.out0) && t.out1 == r.out1
            && Abstract(t) == (if ActOf(r, true, m) == [] then Abstract(r)
               else First(Abstract(r), ActOf(r, true, m)[0].1))
  {
    hide Step, Apply, Emit, OneRoute, Orderly, Pending, Section, Occurs;
    var more := Pending(r.out1);
    match m
    case Do(Local(e)) => SectionRefines(r, e, r.sys.c10);
    case Do(Receive(refuse)) =>
      if r.sys.c10 != [] {
        assert (r.sys.c10 + more)[0] == r.sys.c10[0] && (r.sys.c10 + more)[1..] == r.sys.c10[1..] + more;
        SectionRefines(r, Arrive(Relay(r.sys.c10[0].frame), refuse), r.sys.c10[1..]);
      }
    case Do(Lose(i)) =>
      if i < |r.sys.c10| {
        assert (r.sys.c10 + more)[..i] + (r.sys.c10 + more)[i + 1..] == r.sys.c10[..i] + r.sys.c10[i + 1..] + more;
      }
    case _ => DrainKeeps(r, m);
  }

  lemma MoveRefines(r: Routed, first: bool, m: Move)
    requires OneRoute(r.out0) && OneRoute(r.out1) && OrderlyMove(r, first, m)
    ensures var t := Moves(r, first, m);
            && OneRoute(t.out0) && OneRoute(t.out1)
            && Abstract(t) == RunBoth(Abstract(r), ActOf(r, first, m))
  {
    hide OneRoute, OrderlyFirst, FirstMoves, First, Pending;
    var q := if first then r else SwapRouted(r);
    FirstRefines(q, m);
    var a := ActOf(r, first, m);
    assert ActOf(q, true, m) == if a == [] then [] else [(true, a[0].1)];
    if a != [] { RunOne(Abstract(r), first, a[0].1); assert a == [(first, a[0].1)]; }
    assert Abstract(SwapRouted(r)) == Swap(Abstract(r));
  }

  /** As long as every section is orderly, the routed stations do what the stations of ConnSession do. */
  lemma {:induction false} RunRefines(r: Routed, ms: seq<(bool, Move)>)
    requires OneRoute(r.out0) && OneRoute(r.out1) && OrderlyRun(r, ms)
    ensures Abstract(RunRouted(r, ms)) == RunBoth(Abstract(r), ActsOf(r, ms))
    ensures CarefulRun(r, ms) ==> Careful(Abstract(r), ActsOf(r, ms))
    decreases |ms|
  {
    hide OneRoute, OrderlyMove, Moves, Abstract, ActOf, Allowed;
    if ms != [] {
      var t := Moves(r, ms[0].0, ms[0].1);
      MoveRefines(r, ms[0].0, ms[0].1);
      RunRefines(t, ms[1..]);
      RunAppend(Abstract(r), ActOf(r, ms[0].0, ms[0].1), ActsOf(t, ms[1..]));
      if CarefulRun(r, ms) { CarefulMove(r, ms[0].0, ms[0].1, ActsOf(t, ms[1..])); }
    }
  }

  lemma CarefulMove(r: Routed, first: bool, m: Move, rest: seq<(bool, Act)>)
    requires m.Do? ==> Allowed(r.sys, first, m.act)
    requires Careful(RunBoth(Abstract(r), ActOf(r, first, m)), rest)
    ensures Careful(Abstract(r), ActOf(r, first, m) + rest)
  {
    hide Turn, Welcome, Pending;
    var a := ActOf(r, first, m);
    if a == [] {
      assert a + rest == rest;
    } else {
      RunOne(Abstract(r), first, a[0].1);
      assert a == [(first, a[0].1)] && (a + rest)[1..] == rest;
      assert Allowed(Abstract(r), first, a[0].1);
    }
  }

  /** Safety with the routes in between: what is on the air, received, sent, lost or waiting may interleave in any
      way. */
  lemma RoutedSafety(r: Routed, ms: seq<(bool, Move)>)
    requires OneRoute(r.out0) && OneRoute(r.out1) && SystemInv(Abstract(r)) && OrderlyRun(r, ms) && CarefulRun(r, ms)
    ensures SystemInv(Abstract(RunRouted(r, ms)))
    ensures var t := RunRouted(r, ms).sys;
            && t.p0.acked <= |t.p0.accepted| && t.p1.acked <= |t.p1.accepted|
            && t.p1.delivered <= t.p0.accepted && t.p0.delivered <= t.p1.accepted
            && t.p0.accepted[..t.p0.acked] <= t.p1.delivered && t.p1.accepted[..t.p1.acked] <= t.p0.delivered
            && (Live(t.p0.conn) && Outstanding(t.p0.conn.tx) == 0 ==> t.p1.delivered == t.p0.accepted)
            && (Live(t.p1.conn) && Outstanding(t.p1.conn.tx) == 0 ==> t.p0.delivered == t.p1.accepted)
  {
    hide OneRoute, OrderlyRun, CarefulRun, Careful, SystemInv, Pending, Outstanding;
    RunRefines(r, ms);
    SessionSafety(Abstract(r), ActsOf(r, ms));
    AckedBounds(Abstract(RunRouted(r, ms)));
  }

  lemma AckedBounds(s: System)
    requires SystemInv(s)
    ensures s.p0.acked <= |s.p0.accepted| && s.p1.acked <= |s.p1.accepted|
  {
    hide Inv, ChannelInv, PairInv, Linked;
  }

  /** No spurious reset with the routes in between: no packet on the air enters N(R) error recovery. */
  lemma RoutedNoReset(r: Routed, ms: seq<(bool, Move)>, first: bool, i: nat, refuse: bool)
    requires OneRoute(r.out0) && OneRoute(r.out1) && SystemInv(Abstract(r)) && OrderlyRun(r, ms) && CarefulRun(r, ms)
    requires i < |Inbound(RunRouted(r, ms).sys, first).0|
    ensures var (ch, x, _) := Inbound(RunRouted(r, ms).sys, first);
            OnFrame(x.conn, Relay(ch[i].frame), refuse).code != InvalidResponse
  {
    hide OneRoute, OrderlyRun, CarefulRun, Careful, SystemInv, Pending, OnFrame, PduOf, IsValidNr;
    RunRefines(r, ms);
    var t := RunRouted(r, ms);
    assert Inbound(Abstract(t), first).0[i] == Inbound(t.sys, first).0[i];
    NoSpuriousReset(Abstract(r), ActsOf(r, ms), first, i, refuse);
  }

  /** From one call between idle stations. */
  function Called(c0: Conn, c1: Conn, remote: Address, digis: seq<Address>): Routed {
    var s := Dialled(c0, c1, remote, digis);
    Routed(s.(c01 := []), Out([], [s.c01]), NOTHING)
  }

  lemma CalledInv(c0: Conn, c1: Conn, remote: Address, digis: seq<Address>)
    requires CanDial(c0, c1, remote, digis)
    ensures var r := Called(c0, c1, remote, digis);
            OneRoute(r.out0) && OneRoute(r.out1) && Abstract(r) == Dialled(c0, c1, remote, digis)
                && SystemInv(Abstract(r))
  {
    hide SystemInv, Dialled;
    var r := Called(c0, c1, remote, digis);
    DialledInv(c0, c1, remote, digis);
    DialledSilent(c0, c1, remote, digis);
    assert OnlyAt(r.out0.tasks, 0);
    FlattenOnly(r.out0.tasks, 0);
    FlattenDrained(r.out1.tasks);
    assert Pending(r.out0) == Dialled(c0, c1, remote, digis).c01 && Pending(r.out1) == [];
  }

  lemma DialledSilent(c0: Conn, c1: Conn, remote: Address, digis: seq<Address>)
    ensures Dialled(c0, c1, remote, digis).c10 == []
  {
    hide Step, Emit;
  }

  // ---- What disorder does -----------------------------------------------------------------------------------

  /** The condition cannot be dropped: a section that is not orderly can have its first frame on the air, one move
      later, while older frames still wait. */
  lemma DisorderOvertakes(r: Routed, e: Event, rest: seq<Packet>)
    requires OneRoute(r.out0)
    requires var o := Step(r.sys.p0.conn, e); !Orderly(r.out0, OnTimerTask(e), Emit(Apply(r.sys.p0, e, o), o.out))
    ensures var o := Step(r.sys.p0.conn, e);
            var ps := Emit(Apply(r.sys.p0, e, o), o.out);
            var drain := if OnTimerTask(e) then DrainShared else DrainTask(|r.out0.tasks|);
            var t := FirstMoves(Section(r, e, rest), drain);
            && ps != [] && Pending(r.out0) != []
            && t.sys.c01 == r.sys.c01 + [ps[0]] && |Pending(t.out0)| >= |Pending(r.out0)|
  {
    hide Step, Apply, Emit;
    var o := Step(r.sys.p0.conn, e);
    var ps := Emit(Apply(r.sys.p0, e, o), o.out);
    var t := Section(r, e, rest);
    if !Drained(r.out0.tasks) { SomeWait(r.out0.tasks); }
    if OnTimerTask(e) {
      var u := FirstMoves(t, DrainShared);
      assert u.sys.c01 == r.sys.c01 + [ps[0]];
    } else {
      var n := |r.out0.tasks|;
      var u := FirstMoves(t, DrainTask(n));
      assert u.out0.tasks == r.out0.tasks + [ps[1..]];
      FlattenAppend(r.out0.tasks, ps[1..]);
      assert u.sys.c01 == r.sys.c01 + [ps[0]];
    }
  }

  lemma {:induction false} FlattenAppend(tasks: seq<seq<Packet>>, ps: seq<Packet>)
    ensures Flatten(tasks + [ps]) == Flatten(tasks) + ps
  {
    if tasks == [] {
      assert tasks + [ps] == [ps] && Flatten([ps]) == ps + Flatten([ps][1..]);
    } else {
      assert (tasks + [ps])[1..] == tasks[1..] + [ps];
      FlattenAppend(tasks[1..], ps);
    }
  }

  lemma {:induction false} SomeWait(tasks: seq<seq<Packet>>)
    requires !Drained(tasks)
    ensures Flatten(tasks) != []
  {
    if tasks[0] == [] {
      assert forall j :: 0 <= j < |tasks[1..]| ==> tasks[1..][j] == tasks[j + 1];
      SomeWait(tasks[1..]);
    }
  }

  /** What an N(R) does that n acknowledgements have overtaken: it resets the link exactly if fewer than 8 - n frames
      are outstanding; otherwise it is taken for an acknowledgement. */
  lemma OvertakenNr(x: Party, nr: nat, n: nat)
    requires PartyInv(x) && Live(x.conn) && 1 <= n <= 7 && nr + n == x.acked
    ensures IsValidNr(x.conn.tx, nr % 8) <==> Outstanding(x.conn.tx) + n >= 8
  {
    hide Inv;
    ValidNrMeaning(x.conn.tx, nr % 8);
    OffBehind(x.acked, n);
  }

  lemma OffBehind(a: nat, n: nat)
    requires 1 <= n <= 7 && n <= a
    ensures Off(a % 8, (a - n) % 8) == 8 - n
  {
  }

  // ---- A run that resets the link -----------------------------------------------------------------------------

  /** The second station sends a and b.  The first takes a; T2 expires and its RR is posted to the dispatcher; it
      takes b and sends d, with N(R) = 2, by itself; then the RR, with N(R) = 1, leaves. */
  function LateAck(a: seq<byte>, b: seq<byte>, d: seq<byte>): seq<(bool, Move)> {
    [(false, Do(Local(Send(a)))), (false, DrainTask(0)), (false, Do(Local(Send(b)))), (false, DrainTask(1)),
     (true, Do(Receive(false))), (true, Do(Local(T2(false)))), (true, Do(Receive(false))), (true, Do(Local(Send(d)))),
     (true, DrainTask(0)), (true, DrainShared), (false, Do(Receive(false))), (false, Do(Receive(false)))]
  }

  /** Both stations are in a new session and nothing is on the way. */
  ghost predicate Rested(r: Routed) {
    && Up(r.sys.p0.conn, 0, 0, 0) && Up(r.sys.p1.conn, 0, 0, 0) && Linking(r.sys.p0.conn, r.sys.p1.conn)
    && r.sys.c01 == [] && r.sys.c10 == [] && r.out0 == NOTHING && r.out1 == NOTHING && r.sys.p1.conn.cfg.window >= 2
  }

  /** The first station's side of the run. */
  ghost predicate Near(r: Routed, e: Seq8, v: Seq8, air: seq<Pdu>, shared: seq<Pdu>, tasks: seq<seq<Pdu>>) {
    && Up(r.sys.p0.conn, 0, e, v) && Holding(r.sys.c01, air, r.sys.p0.conn)
       && Holding(r.out0.shared, shared, r.sys.p0.conn)
    && |r.out0.tasks| == |tasks| && forall i :: 0 <= i < |tasks| ==> Holding(r.out0.tasks[i], tasks[i], r.sys.p0.conn)
  }

  /** The second station's side. */
  ghost predicate Far(r: Routed, a: Seq8, e: Seq8, v: Seq8, air: seq<Pdu>, tasks: seq<seq<Pdu>>) {
    && Up(r.sys.p1.conn, a, e, v) && Linking(r.sys.p0.conn, r.sys.p1.conn) && Holding(r.sys.c10, air, r.sys.p1.conn)
    && r.out1.shared == [] && r.sys.p1.conn.cfg.window >= 2
    && |r.out1.tasks| == |tasks| && forall i :: 0 <= i < |tasks| ==> Holding(r.out1.tasks[i], tasks[i], r.sys.p1.conn)
  }

  ghost predicate Holding(ch: seq<Packet>, pdus: seq<Pdu>, x: Conn) {
    |ch| == |pdus| && forall i :: 0 <= i < |ch| ==> Carries(ch[i], pdus[i], x)
  }

  lemma FarSends(r: Routed, e: Seq8, v: Seq8, shared: seq<Pdu>, near: seq<seq<Pdu>>, air: seq<Pdu>,
      tasks: seq<seq<Pdu>>, data: seq<byte>)
    requires Near(r, 0, 0, [], shared, near) && Far(r, 0, e, 0, air, tasks) && e <= 1 && 0 < |data| <= MAX_INFO_LEN
    ensures var t := Moves(r, false, Do(Local(Send(data))));
            Near(t, 0, 0, [], shared, near) && Far(t, 0, Next(e), 0, air, tasks + [[Info(e, 0, false, data)]])
  {
    hide Up, PduOf, Step, Apply, Emit, SameStation;
    SendsAt(r.sys.p1, 0, e, 0, data);
  }

  lemma FarDrains(r: Routed, i: nat, e: Seq8, shared: seq<Pdu>, near: seq<seq<Pdu>>, air: seq<Pdu>,
      tasks: seq<seq<Pdu>>)
    requires Near(r, 0, 0, [], shared, near) && Far(r, 0, e, 0, air, tasks) && i < |tasks| && tasks[i] != []
    ensures var t := Moves(r, false, DrainTask(i));
            Near(t, 0, 0, [], shared, near) && Far(t, 0, e, 0, air + [tasks[i][0]], tasks[i := tasks[i][1..]])
  {
    hide Up, PduOf, Linking;
  }

  lemma NearTakes(r: Routed, v: Seq8, shared: seq<Pdu>, e: Seq8, data: seq<byte>, air: seq<Pdu>, tasks: seq<seq<Pdu>>)
    requires Near(r, 0, v, [], shared, []) && Far(r, 0, e, 0, [Info(v, 0, false, data)] + air, tasks) && data != []
    ensures var t := Moves(r, true, Do(Receive(false)));
            Near(t, 0, Next(v), [], shared, []) && Far(t, 0, e, 0, air, tasks) && t.sys.p0.conn.ackPending
  {
    hide PduOf, Step, Apply, Emit, SameStation, Inv;
    TakesAt(r.sys.p0, r.sys.p1.conn, r.sys.c10[0], 0, 0, v, 0, data);
  }

  lemma NearAcks(r: Routed, v: Seq8, e: Seq8, air: seq<Pdu>, tasks: seq<seq<Pdu>>)
    requires Near(r, 0, v, [], [], []) && Far(r, 0, e, 0, air, tasks) && r.sys.p0.conn.ackPending
    ensures var t := Moves(r, true, Do(Local(T2(false))));
            Near(t, 0, v, [], [Sup(RR, v, false, false)], []) && Far(t, 0, e, 0, air, tasks)
  {
    hide Up, PduOf, Step, Apply, Emit, SameStation;
    AcksAt(r.sys.p0, 0, 0, v);
  }

  lemma NearSends(r: Routed, v: Seq8, shared: seq<Pdu>, e: Seq8, tasks: seq<seq<Pdu>>, data: seq<byte>)
    requires Near(r, 0, v, [], shared, []) && Far(r, 0, e, 0, [], tasks) && 0 < |data| <= MAX_INFO_LEN
    ensures var t := Moves(r, true, Do(Local(Send(data))));
            Near(t, 1, v, [], shared, [[Info(0, v, false, data)]]) && Far(t, 0, e, 0, [], tasks)
    ensures shared != [] ==> !OrderlyMove(r, true, Do(Local(Send(data))))
  {
    hide Up, PduOf, Step, Apply, Emit, SameStation;
    SendsAt(r.sys.p0, 0, 0, v, data);
  }

  /** The task is faster than the dispatcher. */
  lemma NearDrains(r: Routed, v: Seq8, x: Pdu, y: Pdu, e: Seq8, tasks: seq<seq<Pdu>>)
    requires Near(r, 1, v, [], [x], [[y]]) && Far(r, 0, e, 0, [], tasks)
    ensures var t := Moves(Moves(r, true, DrainTask(0)), true, DrainShared);
            Near(t, 1, v, [y, x], [], [[]]) && Far(t, 0, e, 0, [], tasks)
  {
    hide Up, PduOf, Linking;
  }

  lemma FarTakes(r: Routed, v: Seq8, data: seq<byte>, nr: Seq8, x: Pdu, e: Seq8, tasks: seq<seq<Pdu>>)
    requires Near(r, 1, v, [Info(0, nr, false, data), x], [], [[]]) && Far(r, 0, e, 0, [], tasks) && data != []
    requires nr == e
    ensures var t := Moves(r, false, Do(Receive(false))); Near(t, 1, v, [x], [], [[]]) && Far(t, nr, e, 1, [], tasks)
  {
    hide PduOf, Step, Apply, Emit, SameStation, Inv;
    assert IsValidNr(r.sys.p1.conn.tx, nr);
    TakesAt(r.sys.p1, r.sys.p0.conn, r.sys.c01[0], 0, e, 0, nr, data);
  }

  lemma FarResets(r: Routed, v: Seq8, nr: Seq8, e: Seq8, tasks: seq<seq<Pdu>>)
    requires Near(r, 1, v, [Sup(RR, nr, false, false)], [], [[]]) && Far(r, e, e, 1, [], tasks) && nr != e
    ensures Moves(r, false, Do(Receive(false))).sys.p1.conn.state == AwaitingConnection
    ensures OnFrame(r.sys.p1.conn, Relay(r.sys.c01[0].frame), false).code == InvalidResponse
  {
    hide PduOf, SameStation, Inv, ConnectedSup, Emit, Accepts, Relay;
    Taken(r.sys.p1.conn, r.sys.p0.conn, r.sys.c01[0], Sup(RR, nr, false, false));
    UpMistakes(r.sys.p1.conn, RR, nr, false, false);
  }

  lemma {:induction false} RunOnward(r: Routed, ms: seq<(bool, Move)>, n: nat)
    requires n < |ms|
    ensures RunRouted(r, ms[..n + 1]) == Moves(RunRouted(r, ms[..n]), ms[n].0, ms[n].1)
    ensures OrderlyRun(r, ms) ==> OrderlyMove(RunRouted(r, ms[..n]), ms[n].0, ms[n].1)
    decreases n
  {
    hide Moves, OrderlyMove;
    if n == 0 {
      var t := Moves(r, ms[0].0, ms[0].1);
      assert ms[..1][1..] == [] && RunRouted(t, []) == t && ms[..0] == [];
    } else {
      assert ms[..n + 1][1..] == ms[1..][..n] && ms[..n][1..] == ms[1..][..n - 1];
      RunOnward(Moves(r, ms[0].0, ms[0].1), ms[1..], n - 1);
    }
  }

  /** The second station sends one payload by itself, and the frame leaves. */
  lemma FarSendsNow(r: Routed, e: Seq8, air: seq<Pdu>, tasks: seq<seq<Pdu>>, data: seq<byte>)
    requires Near(r, 0, 0, [], [], []) && Far(r, 0, e, 0, air, tasks) && e <= 1 && 0 < |data| <= MAX_INFO_LEN
    ensures var t := Moves(Moves(r, false, Do(Local(Send(data)))), false, DrainTask(|tasks|));
            Near(t, 0, 0, [], [], []) && Far(t, 0, Next(e), 0, air + [Info(e, 0, false, data)], tasks + [[]])
  {
    hide Up, Near, Far, Moves, Linking;
    var f := Info(e, 0, false, data);
    FarSends(r, e, 0, [], [], air, tasks, data);
    FarDrains(Moves(r, false, Do(Local(Send(data)))), |tasks|, Next(e), [], [], air, tasks + [[f]]);
    assert [f][1..] == [] && (tasks + [[f]])[|tasks| := []] == tasks + [[]];
  }

  /** The second station has sent a and b, the first has taken a, and its RR waits in the dispatcher's queue. */
  lemma LateAckPosted(r: Routed, a: seq<byte>, b: seq<byte>, d: seq<byte>)
    requires Rested(r) && 0 < |a| <= MAX_INFO_LEN && 0 < |b| <= MAX_INFO_LEN
    ensures var t := RunRouted(r, LateAck(a, b, d)[..6]);
            Near(t, 0, 1, [], [Sup(RR, 1, false, false)], []) && Far(t, 0, 2, 0, [Info(1, 0, false, b)], [[], []])
  {
    hide Up, Near, Far, Moves, Linking, Rested, OrderlyRun, OrderlyMove;
    var ia, ib := Info(0, 0, false, a), Info(1, 0, false, b);
    var ms := LateAck(a, b, d);
    assert RunRouted(r, ms[..0]) == r;
    RestedSides(r);
    RunOnward(r, ms, 0);
    RunOnward(r, ms, 1);
    RunOnward(r, ms, 2);
    RunOnward(r, ms, 3);
    RunOnward(r, ms, 4);
    RunOnward(r, ms, 5);
    FarSendsNow(r, 0, [], [], a);
    var none: seq<Pdu>, no: seq<seq<Pdu>> := [], [];
    assert none + [ia] == [ia] && no + [none] == [none] && [ia] + [ib] == [ia, ib] && [none] + [none] == [none, none];
    FarSendsNow(RunRouted(r, ms[..2]), 1, [ia], [[]], b);
    NearTakes(RunRouted(r, ms[..4]), 0, [], 2, a, [ib], [[], []]);
    NearAcks(RunRouted(r, ms[..5]), 1, 2, [ib], [[], []]);
  }

  /** The first station's data, with N(R) = 2, has overtaken its RR, with N(R) = 1. */
  lemma LateAckOvertaken(r: Routed, a: seq<byte>, b: seq<byte>, d: seq<byte>)
    requires Rested(r) && 0 < |a| <= MAX_INFO_LEN && 0 < |b| <= MAX_INFO_LEN && 0 < |d| <= MAX_INFO_LEN
    ensures !OrderlyRun(r, LateAck(a, b, d))
    ensures var t := RunRouted(r, LateAck(a, b, d)[..10]);
            Near(t, 1, 2, [Info(0, 2, false, d), Sup(RR, 1, false, false)], [], [[]]) && Far(t, 0, 2, 0, [], [[], []])
  {
    hide Up, Near, Far, Moves, Linking, OrderlyMove, Rested, OrderlyRun, PduOf;
    var ib, id, rr := Info(1, 0, false, b), Info(0, 2, false, d), Sup(RR, 1, false, false);
    var ms := LateAck(a, b, d);
    var none: seq<Pdu> := [];
    assert [ib] + none == [ib];
    LateAckPosted(r, a, b, d);
    RunOnward(r, ms, 6);
    NearTakes(RunRouted(r, ms[..6]), 1, [rr], 2, b, none, [none, none]);
    RunOnward(r, ms, 7);
    NearSends(RunRouted(r, ms[..7]), 2, [rr], 2, [none, none], d);
    RunOnward(r, ms, 8);
    RunOnward(r, ms, 9);
    NearDrains(RunRouted(r, ms[..8]), 2, rr, id, 2, [none, none]);
  }

  /** One acknowledgement that leaves late is enough to reset the link, although nothing was lost and both sides are
      right: the run is not orderly, and it ends with the second station in N(R) error recovery. */
  lemma LateAckResets(r: Routed, a: seq<byte>, b: seq<byte>, d: seq<byte>)
    requires Rested(r) && 0 < |a| <= MAX_INFO_LEN && 0 < |b| <= MAX_INFO_LEN && 0 < |d| <= MAX_INFO_LEN
    ensures !OrderlyRun(r, LateAck(a, b, d))
    ensures RunRouted(r, LateAck(a, b, d)).sys.p1.conn.state == AwaitingConnection
    ensures var t := RunRouted(r, LateAck(a, b, d)[..11]);
            |t.sys.c01| == 1 && OnFrame(t.sys.p1.conn, Relay(t.sys.c01[0].frame), false).code == InvalidResponse
  {
    hide Up, Far, Moves, Linking, OrderlyMove, Rested, OrderlyRun, OnFrame, Relay, PduOf;
    var rr := Sup(RR, 1, false, false);
    var ms := LateAck(a, b, d);
    LateAckOvertaken(r, a, b, d);
    RunOnward(r, ms, 10);
    FarTakes(RunRouted(r, ms[..10]), 2, d, 2, rr, 2, [[], []]);
    RunOnward(r, ms, 11);
    FarResets(RunRouted(r, ms[..11]), 2, 1, 2, [[], []]);
    assert ms[..12] == ms;
  }

  lemma RestedSides(r: Routed)
    requires Rested(r)
    ensures Near(r, 0, 0, [], [], []) && Far(r, 0, 0, 0, [], [])
  {
    hide Up, PduOf, SameStation;
  }
}

/** What every sequence of router calls keeps, who receives a frame, and how a path is worked off. */
module RouterProofs {
  import opened Ax25Types
  import opened RouterSpec
  import ConnSpec
  import FrameCodec

  // ---- The table's constraints ------------------------------------------------------------------------------

  lemma RegisterKeeps(t: Table, id: nat)
    requires Inv(t) && id in t.ports
    ensures var (u, code) := Register(t, id);
            && Inv(u)
            && (code == OK <==>
               Admissible(t, id) &&
               exists k :: 0 <= k < |t.slots| && t.slots[k].port == Nobody
                   && (t.slots[k].retired ==> t.slots[k].idle))
            && (code == OK ==> Registered(u, id)) && (code != OK ==> u == t)
  {
    var (u, code) := Register(t, id);
    if code == OK {
      var k := AllocSlot(t.slots);
      assert u.slots[k].port == Of(id);
    }
  }

  /** The same port object, two default ports, or two static or digipeater ports at one station. */
  predicate Clash(a: nat, p: Port, b: nat, q: Port) {
    || a == b || (p.mode == Default && q.mode == Default)
    || (p.mode in {Static, Digipeater} && q.mode in {Static, Digipeater}
        && p.destination.callsign == q.destination.callsign && p.destination.ssid == q.destination.ssid)
  }

  /** The slot has no port, and no task of an earlier one. */
  predicate Vacant(s: Slot) { s.port == Nobody && (s.retired ==> s.idle) }

  /** Each answer of a registration, and what it leaves: the port with cleared counters in one vacant slot with an empty
      queue, one never used if there is any, and everybody else as before. */
  lemma RegisterExact(t: Table, id: nat)
    requires Inv(t) && id in t.ports
    ensures var (u, code) := Register(t, id);
            var clash :=
              exists i ::
                0 <= i < |t.slots| && t.slots[i].port.Of?
                && Clash(id, t.ports[id], t.slots[i].port.id, t.ports[t.slots[i].port.id]);
            var vacant := exists k :: 0 <= k < |t.slots| && Vacant(t.slots[k]);
            && code == (if clash then InvalidState else if !vacant then NoMem else OK)
            && (code != OK ==> u == t)
            && (code == OK ==> exists k :: Takes(t, u, id, k))
  {
    var k := AllocSlot(t.slots);
    if k < |t.slots| { assert Vacant(t.slots[k]); }
    if Admissible(t, id) && k < |t.slots| { assert Takes(t, Register(t, id).0, id, k); }
  }

  ghost predicate Takes(t: Table, u: Table, id: nat, k: nat)
    requires id in t.ports
  {
    && k < |t.slots| && Vacant(t.slots[k])
    && (t.slots[k].retired ==> forall j :: 0 <= j < |t.slots| && t.slots[j].port == Nobody ==> t.slots[j].retired)
    && u.slots == t.slots[k := Slot(Of(id), false, false, [])] && u.depth == t.depth
    && u.ports == t.ports[id := Port(t.ports[id].mode, t.ports[id].destination, 0, 0, 0)]
  }

  /** A removal touches the port's slot alone, which stays retired; its queue is emptied once the task has stopped. */
  lemma RemoveExact(t: Table, id: nat, stopped: bool)
    requires Inv(t)
    ensures var (u, found) := Remove(t, id, stopped);
            && (found <==> exists i :: 0 <= i < |t.slots| && t.slots[i].port == Of(id))
            && |u.slots| == |t.slots| && u.ports == t.ports && u.depth == t.depth
            && forall i :: 0 <= i < |t.slots| ==>
                 if t.slots[i].port == Of(id) then
                   u.slots[i].port == Nobody && u.slots[i].retired && (u.slots[i].idle <==> stopped)
                   && u.slots[i].queue == if stopped then [] else t.slots[i].queue
                 else u.slots[i] == t.slots[i]
  {
    var k := FindSlot(t.slots, id, 0);
    if k < |t.slots| {
      assert t.slots[k].port == Of(id);
      forall j | 0 <= j < |t.slots| && j != k ensures t.slots[j].port != Of(id) {}
    }
  }

  lemma RemoveKeeps(t: Table, id: nat, stopped: bool)
    requires Inv(t)
    ensures Inv(Remove(t, id, stopped).0) && !Registered(Remove(t, id, stopped).0, id)
    ensures Remove(t, id, stopped).1 <==> Registered(t, id)
  {
    var k := FindSlot(t.slots, id, 0);
    if k < |t.slots| {
      assert t.slots[k].port == Of(id);
      forall j | 0 <= j < |t.slots| && j != k ensures t.slots[j].port != Of(id) {}
    }
  }

  lemma BindKeeps(t: Table, src: nat, f: Frame)
    requires Inv(t) && src in t.ports
    ensures Inv(Bind(t, src, f))
    ensures var u := Bind(t, src, f);
            u.slots == t.slots && (forall id :: id in t.ports && (id != src || t.ports[id].mode != Dynamic) ==>
                u.ports[id] == t.ports[id])
    ensures t.ports[src].mode == Dynamic && f.source.callsign != [] ==> Bound(Bind(t, src, f).ports[src])
  {
  }

  lemma OfferedKeeps(t: Table, u: Table, to: set<nat>, f: Frame)
    requires Inv(t) && OfferedTo(t, u, to, f)
    ensures Inv(u)
    ensures forall id :: id in t.ports ==> u.ports[id] == t.ports[id].(dropped := u.ports[id].dropped)
  {
    forall id | id in t.ports ensures u.ports[id] == t.ports[id].(dropped := u.ports[id].dropped) {
      if Registered(t, id) { var i :| 0 <= i < |t.slots| && t.slots[i].port == Of(id); }
    }
    forall i | 0 <= i < |t.slots| ensures u.slots[i].port == t.slots[i].port {}
  }

  /** Every step keeps the registration constraints and the queue bound. */
  lemma StepKeeps(t: Table, e: Event, u: Table)
    requires Inv(t) && Enabled(t, e) && Step(t, e, u)
    ensures Inv(u)
  {
    match e
    case Create(id, p) => forall i | 0 <= i < |t.slots| ensures t.slots[i].port != Of(id) { assert !Registered(t, id); }
    case Registers(id) => RegisterKeeps(t, id);
    case Removes(id, stopped) => RemoveKeeps(t, id, stopped);
    case TaskGone(i) =>
    case Transmits(i) =>
    case Sends(src, f) =>
      BindKeeps(t, src, f);
      OfferedKeeps(Bind(t, src, f), u, Recipients(Bind(t, src, f), src, f), f);
  }

  /** Any sequence of calls, from any table that meets the constraints. */
  lemma {:induction false} RunKeeps(ts: seq<Table>, es: seq<Event>)
    requires |ts| == |es| + 1 && Inv(ts[0])
    requires forall i :: 0 <= i < |es| && Inv(ts[i]) ==> Enabled(ts[i], es[i]) && Step(ts[i], es[i], ts[i + 1])
    ensures forall i :: 0 <= i < |ts| ==> Inv(ts[i])
    decreases |es|
  {
    hide Inv, Step;
    if es != [] {
      StepKeeps(ts[0], es[0], ts[1]);
      RunKeeps(ts[1..], es[1..]);
      forall i | 0 < i < |ts| ensures Inv(ts[i]) { assert ts[i] == ts[1..][i - 1]; }
    }
  }

  // ---- Who receives a frame ---------------------------------------------------------------------------------

  /** In every reachable table at most one static or digipeater port receives a frame, and at most one default port;
      the default port receives it exactly when no addressed port but the sender's matches. */
  lemma AtMostOneAddressed(t: Table, src: nat, f: Frame, i: nat, j: nat)
    requires Inv(t) && i in Recipients(t, src, f) && j in Recipients(t, src, f)
    ensures var p, q := t.ports[t.slots[i].port.id], t.ports[t.slots[j].port.id];
            && (Addressed(p.mode) && Addressed(q.mode) ==> i == j)
            && (p.mode == Default && q.mode == Default ==> i == j)
            && (p.mode == Default && q.mode != Default ==> q.mode == Promiscuous)
  {
    assert Compatible(t.slots[i].port.id, t.ports[t.slots[i].port.id], t.slots[j].port.id, t.ports[t.slots[j].port.id])
        || i >= j by { if i < j { assert Inv(t); } }
    assert !AnyMatch(t, src, f) ==> !Match(t, i, src, f) && !Match(t, j, src, f);
  }

  /** The sender never gets its own frame back, and a frame whose path is not finished reaches no static or dynamic
      port. */
  lemma NoEcho(t: Table, src: nat, f: Frame, i: nat)
    requires Inv(t) && i in Recipients(t, src, f)
    ensures t.slots[i].port.Of? && t.slots[i].port.id != src
    ensures t.ports[t.slots[i].port.id].mode in {Static, Dynamic} ==>
              (forall k :: 0 <= k < |f.digipeaters| ==> f.digipeaters[k].repeated)
              && SameStation(t.ports[t.slots[i].port.id].destination, f.destination)
  {
  }

  /** The path entry that the next digipeater has to repeat. */
  predicate FirstOpen(path: seq<Address>, k: int) {
    0 <= k < |path| && !path[k].repeated && forall j :: 0 <= j < k ==> path[j].repeated
  }

  predicate AllRepeated(path: seq<Address>) { forall k :: 0 <= k < |path| ==> path[k].repeated }

  /** The frame is for this port by its address: the digipeater at the first open path entry, or, after the whole path,
      the static port or bound dynamic port at the destination. */
  ghost predicate Named(p: Port, f: Frame) {
    var a := p.destination;
    match p.mode
    case Digipeater =>
      exists k :: FirstOpen(f.digipeaters, k) && a.callsign == f.digipeaters[k].callsign
                  && a.ssid == f.digipeaters[k].ssid
    case Static => AllRepeated(f.digipeaters) && a.callsign == f.destination.callsign && a.ssid == f.destination.ssid
    case Dynamic =>
      && a.callsign != [] && AllRepeated(f.digipeaters)
      && a.callsign == f.destination.callsign && a.ssid == f.destination.ssid
    case Promiscuous => false
    case Default => false
  }

  /** Another port than the sender's is named by the frame. */
  ghost predicate NamesSomebody(t: Table, src: nat, f: Frame)
    requires Inv(t)
  {
    exists j :: 0 <= j < |t.slots| && t.slots[j].port.Of? && t.slots[j].port.id != src
                && Named(t.ports[t.slots[j].port.id], f)
  }

  /** The copy for a digipeater has the H bit of the first open entry; every other port gets the frame as it is. */
  ghost predicate CopyOf(p: Port, f: Frame, g: Frame) {
    if p.mode != Digipeater then g == f
    else
      && g == f.(digipeaters := g.digipeaters) && |g.digipeaters| == |f.digipeaters|
      && forall k :: 0 <= k < |f.digipeaters| ==>
           g.digipeaters[k] == f.digipeaters[k].(repeated := f.digipeaters[k].repeated || FirstOpen(f.digipeaters, k))
  }

  /** The slot and its port have taken the frame: one copy at the end of the queue, or one drop when it is full. */
  ghost predicate Gains(s: Slot, p: Port, s': Slot, p': Port, depth: nat, f: Frame) {
    if |s.queue| < depth then
      && p' == p && |s'.queue| == |s.queue| + 1 && s' == s.(queue := s'.queue)
      && s'.queue[..|s.queue|] == s.queue && CopyOf(p, f, s'.queue[|s.queue|])
    else s' == s && p' == p.(dropped := p.dropped + 1)
  }

  lemma EligibleMeaning(p: Port, f: Frame)
    ensures Eligible(p, f) <==> p.mode == Promiscuous || Named(p, f)
    ensures Eligible(p, f) || p.mode != Digipeater ==> CopyOf(p, f, CopyFor(p, f))
  {
    var k := NextDigi(f.digipeaters);
    if k < |f.digipeaters| { assert FirstOpen(f.digipeaters, k); }
    assert forall j :: FirstOpen(f.digipeaters, j) ==> j == k;
    assert k == |f.digipeaters| <==> AllRepeated(f.digipeaters);
  }

  /** Who gets a frame, exactly, read off the tables before and after a send.  A registered port other than the sender
      takes it if it is promiscuous, whatever the path; if the frame names it; or if it is the default port and the
      frame names no port but the sender's.  Nobody else does, and the sender does not. */
  lemma SendExact(t: Table, src: nat, f: Frame, u: Table, i: nat)
    requires Inv(t) && src in t.ports && Step(t, Sends(src, f), u) && i < |t.slots| && t.slots[i].port.Of?
    ensures |u.slots| == |t.slots| && t.slots[i].port.id in t.ports && t.slots[i].port.id in u.ports
    ensures var id := t.slots[i].port.id;
            var p := t.ports[id];
            if id == src then u.slots[i] == t.slots[i] && u.ports[id].dropped == p.dropped
            else if p.mode == Promiscuous || Named(p, f) || (p.mode == Default && !NamesSomebody(t, src, f))
            then Gains(t.slots[i], p, u.slots[i], u.ports[id], t.depth, f)
            else u.slots[i] == t.slots[i] && u.ports[id] == p
  {
    hide Inv, Eligible, Named, CopyOf, CopyFor, FrameCodec.FrameByteCount;
    assert Inv(t);
    BindKeeps(t, src, f);
    var b := Bind(t, src, f);
    var id := t.slots[i].port.id;
    IdsKnown(t);
    EligibleMeaning(t.ports[id], f);
    MatchMeaning(t, b, src, f);
    RecipientsAt(b, u, src, f, i);
  }

  lemma IdsKnown(t: Table)
    requires Inv(t)
    ensures forall i :: 0 <= i < |t.slots| && t.slots[i].port.Of? ==> t.slots[i].port.id in t.ports
  {
  }

  lemma MatchMeaning(t: Table, b: Table, src: nat, f: Frame)
    requires Inv(t) && src in t.ports && b == Bind(t, src, f)
    ensures AnyMatch(b, src, f) <==> NamesSomebody(t, src, f)
  {
    hide Eligible, Named;
    forall p: Port ensures Eligible(p, f) <==> p.mode == Promiscuous || Named(p, f) { EligibleMeaning(p, f); }
    forall p: Port ensures p.mode == Promiscuous ==> !Named(p, f) { PromiscuousUnnamed(p, f); }
    if AnyMatch(b, src, f) {
      var j: nat :| Match(b, j, src, f);
      assert b.ports[b.slots[j].port.id] == t.ports[t.slots[j].port.id];
    }
    if NamesSomebody(t, src, f) {
      var j :| 0 <= j < |t.slots| && t.slots[j].port.Of? && t.slots[j].port.id != src
          && Named(t.ports[t.slots[j].port.id], f);
      assert Match(b, j, src, f);
    }
  }

  lemma PromiscuousUnnamed(p: Port, f: Frame)
    ensures p.mode == Promiscuous ==> !Named(p, f)
  {
  }

  lemma RecipientsAt(b: Table, u: Table, src: nat, f: Frame, i: nat)
    requires Inv(b) && OfferedTo(b, u, Recipients(b, src, f), f) && i < |b.slots| && b.slots[i].port.Of?
    ensures b.slots[i].port.id in b.ports && b.slots[i].port.id in u.ports && |u.slots| == |b.slots|
    ensures var id := b.slots[i].port.id;
            var p := b.ports[id];
            if id != src && (Eligible(p, f) || (p.mode == Default && !AnyMatch(b, src, f))) then
              if |b.slots[i].queue| < b.depth
              then u.slots[i] == b.slots[i].(queue := b.slots[i].queue + [CopyFor(p, f)]) && u.ports[id] == p
              else u.slots[i] == b.slots[i] && u.ports[id] == p.(dropped := p.dropped + 1)
            else u.slots[i] == b.slots[i] && u.ports[id] == p
  {
    hide Eligible, CopyFor, AnyMatch, Compatible;
  }

  /** A dynamic port without a destination is bound to the source of the first frame it sends, whatever that frame's
      destination and path, and no other port's address changes. */
  lemma SendBinds(t: Table, src: nat, f: Frame, u: Table, id: nat)
    requires Inv(t) && src in t.ports && Step(t, Sends(src, f), u) && id in t.ports
    ensures id in u.ports && u.ports[id].mode == t.ports[id].mode
    ensures u.ports[id].destination ==
            if id == src && t.ports[id].mode == Dynamic && t.ports[id].destination.callsign == [] then f.source
            else t.ports[id].destination
  {
    BindKeeps(t, src, f);
    OfferedKeeps(Bind(t, src, f), u, Recipients(Bind(t, src, f), src, f), f);
  }

  /** Nothing is lost without being counted: what a registered port was offered since registration is what it has
      sent, dropped and still has queued. */
  function Handled(t: Table, i: nat): nat
    requires i < |t.slots| && t.slots[i].port.Of? && t.slots[i].port.id in t.ports
  {
    var p := t.ports[t.slots[i].port.id];
    p.sent + p.dropped + |t.slots[i].queue|
  }

  lemma SendConserves(t: Table, src: nat, f: Frame, u: Table, i: nat)
    requires Inv(t) && Enabled(t, Sends(src, f)) && Step(t, Sends(src, f), u) && i < |t.slots| && t.slots[i].port.Of?
    ensures u.slots[i].port == t.slots[i].port && t.slots[i].port.id in u.ports && t.slots[i].port.id in t.ports
    ensures Handled(u, i) == Handled(t, i) + if i in Recipients(Bind(t, src, f), src, f) then 1 else 0
  {
    BindKeeps(t, src, f);
  }

  lemma TransmitConserves(t: Table, i: nat, j: nat)
    requires Inv(t) && Enabled(t, Transmits(i)) && j < |t.slots| && t.slots[j].port.Of?
    ensures var u := Transmit(t, i);
            u.slots[j].port == t.slots[j].port && t.slots[j].port.id in u.ports
            && Handled(u, j) == Handled(t, j)
    ensures Transmit(t, i).slots == t.slots[i := t.slots[i].(queue := t.slots[i].queue[1..])]
    ensures i == j ==> Transmit(t, i).ports[t.slots[i].port.id].bytes ==
                       t.ports[t.slots[i].port.id].bytes + |FrameCodec.Built(t.slots[i].queue[0])|
  {
    FrameCodec.BuiltLength(t.slots[i].queue[0]);
    if i != j && t.slots[i].port.Of? { assert t.slots[i].port.id != t.slots[j].port.id by { assert Inv(t); } }
  }

  // ---- Working off a path -------------------------------------------------------------------------------------

  function Unrepeated(path: seq<Address>): nat {
    if path == [] then 0 else (if path[0].repeated then 0 else 1) + Unrepeated(path[1..])
  }

  lemma {:induction false} UnrepeatedUpdate(path: seq<Address>, k: nat)
    requires k < |path| && !path[k].repeated
    ensures Unrepeated(path[k := path[k].(repeated := true)]) == Unrepeated(path) - 1
  {
    if k > 0 {
      UnrepeatedUpdate(path[1..], k - 1);
      assert path[k := path[k].(repeated := true)][1..] == path[1..][k - 1 := path[k].(repeated := true)];
    } else {
      assert path[0 := path[0].(repeated := true)][1..] == path[1..];
    }
  }

  /** A digipeater's copy is the frame with one more H bit, the first missing one, and nothing else changed. */
  lemma DigiCopy(p: Port, f: Frame)
    requires p.mode == Digipeater && Eligible(p, f)
    ensures var g, k := CopyFor(p, f), NextDigi(f.digipeaters);
            && k < |f.digipeaters| && SameStation(p.destination, f.digipeaters[k])
            && g == f.(digipeaters := g.digipeaters) && |g.digipeaters| == |f.digipeaters|
            && (forall i :: 0 <= i < |f.digipeaters| ==>
                  g.digipeaters[i] == if i == k then f.digipeaters[i].(repeated := true) else f.digipeaters[i])
            && Unrepeated(g.digipeaters) == Unrepeated(f.digipeaters) - 1
            && NextDigi(g.digipeaters) > k
  {
    UnrepeatedUpdate(f.digipeaters, NextDigi(f.digipeaters));
  }

  lemma {:induction false} FinishedPath(path: seq<Address>)
    ensures Unrepeated(path) == 0 <==> NextDigi(path) == |path|
  {
    if path != [] { FinishedPath(path[1..]); }
  }

  /** The path a frame takes: each hop is a digipeater port that passes its copy on. */
  function Hops(f: Frame, ports: seq<Port>): Frame
    decreases |ports|
  {
    if ports == [] then f else Hops(CopyFor(ports[0], f), ports[1..])
  }

  predicate Relayed(f: Frame, ports: seq<Port>)
    decreases |ports|
  {
    ports != [] ==> ports[0].mode == Digipeater && Eligible(ports[0], f) && Relayed(CopyFor(ports[0], f), ports[1..])
  }

  /** A frame is taken by a static port for its destination, or by a session there, after exactly as many digipeater
      hops as it has unfinished path entries, and by none before. */
  lemma {:induction false} HopsNeeded(f: Frame, hops: seq<Port>, end: Port, c: ConnSpec.Conn)
    requires Relayed(f, hops) && end.mode == Static && SameStation(end.destination, f.destination)
    ensures Eligible(end, Hops(f, hops)) <==> |hops| == Unrepeated(f.digipeaters)
    ensures ConnSpec.Accepts(c, Hops(f, hops)) ==> |hops| == Unrepeated(f.digipeaters)
    ensures |hops| <= Unrepeated(f.digipeaters)
    decreases |hops|
  {
    hide Eligible, CopyFor;
    if hops == [] {
      EligibleStatic(end, f);
      FinishedPath(f.digipeaters);
      if ConnSpec.Accepts(c, f) { assert NextDigi(f.digipeaters) == |f.digipeaters|; }
    } else {
      DigiCopy(hops[0], f);
      HopsNeeded(CopyFor(hops[0], f), hops[1..], end, c);
    }
  }

  lemma EligibleStatic(p: Port, f: Frame)
    requires p.mode == Static && SameStation(p.destination, f.destination)
    ensures Eligible(p, f) <==> NextDigi(f.digipeaters) == |f.digipeaters|
  {
  }
}

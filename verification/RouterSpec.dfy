/** The router's port table: registration, removal, binding and the two-pass delivery, as functions on values, what
    every sequence of calls keeps, and the set of ports a frame is offered to. */
module RouterSpec {
  import opened Ax25Types
  import FrameCodec

  datatype Mode = Promiscuous | Default | Digipeater | Static | Dynamic

  /** An application's port object; `destination` of a dynamic port is empty until it is bound. */
  datatype Port = Port(mode: Mode, destination: Address, sent: nat, bytes: nat, dropped: nat)

  datatype Ref = Nobody | Of(id: nat)

  /** A slot of the table; `idle` says that the port task of its last registration has gone. */
  datatype Slot = Slot(port: Ref, retired: bool, idle: bool, queue: seq<Frame>)

  /** `ports` is the memory that holds the applications' port objects. */
  datatype Table = Table(slots: seq<Slot>, ports: map<nat, Port>, depth: nat)

  predicate Bound(p: Port) { p.destination.callsign != [] }

  /** Ports that are registered under an address of their own. */
  predicate Addressed(m: Mode) { m == Static || m == Digipeater }

  // ---- Where a frame goes next -------------------------------------------------------------------------

  /** The first digipeater that has not repeated the frame, or the length of the path. */
  function NextDigi(path: seq<Address>): (k: nat)
    ensures k <= |path| && (k < |path| ==> !path[k].repeated) && forall i :: 0 <= i < k ==> path[i].repeated
  {
    if path == [] || !path[0].repeated then 0 else 1 + NextDigi(path[1..])
  }

  /** `port_is_eligible`. */
  predicate Eligible(p: Port, f: Frame) {
    var k := NextDigi(f.digipeaters);
    var done := k == |f.digipeaters|;
    match p.mode
    case Promiscuous => true
    case Default => false
    case Digipeater => !done && SameStation(p.destination, f.digipeaters[k])
    case Static => done && SameStation(p.destination, f.destination)
    case Dynamic => Bound(p) && done && SameStation(p.destination, f.destination)
  }

  /** What the port is handed: a digipeater's copy carries its H bit. */
  function CopyFor(p: Port, f: Frame): Frame {
    var k := NextDigi(f.digipeaters);
    if p.mode == Digipeater && k < |f.digipeaters|
    then f.(digipeaters := f.digipeaters[k := f.digipeaters[k].(repeated := true)])
    else f
  }

  // ---- The table ----------------------------------------------------------------------------------------

  ghost predicate Inv(t: Table) {
    && (forall i :: 0 <= i < |t.slots| && t.slots[i].port.Of? ==> t.slots[i].port.id in t.ports)
    && (forall i, j :: 0 <= i < j < |t.slots| && t.slots[i].port.Of? && t.slots[j].port.Of? ==>
          Compatible(t.slots[i].port.id, t.ports[t.slots[i].port.id], t.slots[j].port.id, t.ports[t.slots[j].port.id]))
    && (forall i :: 0 <= i < |t.slots| ==> |t.slots[i].queue| <= t.depth)
  }

  /** Two registered ports are different objects, not both default, and do not share an address. */
  predicate Compatible(a: nat, p: Port, b: nat, q: Port) {
    && a != b
    && !(p.mode == Default && q.mode == Default)
    && !(Addressed(p.mode) && Addressed(q.mode) && SameStation(p.destination, q.destination))
  }

  predicate Registered(t: Table, id: nat) { exists i :: 0 <= i < |t.slots| && t.slots[i].port == Of(id) }

  /** No registered port refuses the newcomer. */
  predicate Admissible(t: Table, id: nat)
    requires id in t.ports && forall i :: 0 <= i < |t.slots| && t.slots[i].port.Of? ==> t.slots[i].port.id in t.ports
  {
    forall i :: 0 <= i < |t.slots| && t.slots[i].port.Of? ==>
      Compatible(id, t.ports[id], t.slots[i].port.id, t.ports[t.slots[i].port.id])
  }

  function FreshFrom(slots: seq<Slot>, i: nat): (k: nat)
    requires i <= |slots|
    ensures i <= k <= |slots|
    ensures k < |slots| ==> slots[k].port == Nobody && !slots[k].retired
    ensures forall j :: i <= j < k ==> slots[j].port != Nobody || slots[j].retired
    decreases |slots| - i
  {
    if i == |slots| || (slots[i].port == Nobody && !slots[i].retired) then i else FreshFrom(slots, i + 1)
  }

  function ReclaimableFrom(slots: seq<Slot>, i: nat): (k: nat)
    requires i <= |slots|
    ensures i <= k <= |slots|
    ensures k < |slots| ==> slots[k].port == Nobody && slots[k].retired && slots[k].idle
    ensures forall j :: i <= j < k ==> slots[j].port != Nobody || !slots[j].retired || !slots[j].idle
    decreases |slots| - i
  {
    if i == |slots| || (slots[i].port == Nobody && slots[i].retired && slots[i].idle) then i
      else ReclaimableFrom(slots, i + 1)
  }

  /** `alloc_port_slot`: a slot never used, else a retired one whose task has gone, else none. */
  function AllocSlot(slots: seq<Slot>): (k: nat)
    ensures k <= |slots|
  {
    if FreshFrom(slots, 0) < |slots| then FreshFrom(slots, 0) else ReclaimableFrom(slots, 0)
  }

  /** `ax25_router_register_port`. */
  function Register(t: Table, id: nat): (Table, Code)
    requires id in t.ports && forall i :: 0 <= i < |t.slots| && t.slots[i].port.Of? ==> t.slots[i].port.id in t.ports
  {
    var k := AllocSlot(t.slots);
    if !Admissible(t, id) then (t, InvalidState)
    else if k == |t.slots| then (t, NoMem)
    else (t.(slots := t.slots[k := Slot(Of(id), false, false, [])],
             ports := t.ports[id := t.ports[id].(sent := 0, bytes := 0, dropped := 0)]), OK)
  }

  function FindSlot(slots: seq<Slot>, id: nat, i: nat): (k: nat)
    requires i <= |slots|
    ensures i <= k <= |slots| && (k < |slots| ==> slots[k].port == Of(id)) && forall j :: i <= j < k ==>
            slots[j].port != Of(id)
    decreases |slots| - i
  {
    if i == |slots| || slots[i].port == Of(id) then i else FindSlot(slots, id, i + 1)
  }

  /** `ax25_router_remove_port` as one step; `stopped` says whether the port's task stopped in time. */
  function Remove(t: Table, id: nat, stopped: bool): (Table, bool) {
    var k := FindSlot(t.slots, id, 0);
    if k == |t.slots| then (t, false)
    else
      var s := t.slots[k];
      (t.(slots := t.slots[k := Slot(Nobody, true, stopped, if stopped then [] else s.queue)]), true)
  }

  /** A dynamic source port is bound to the source of the first frame it sends. */
  function Bind(t: Table, src: nat, f: Frame): Table
    requires src in t.ports
  {
    var p := t.ports[src];
    if p.mode == Dynamic && !Bound(p) then t.(ports := t.ports[src := p.(destination := f.source)]) else t
  }

  /** One offer: the copy is queued, or counted as dropped when the queue is full. */
  function Offer(t: Table, i: nat, f: Frame): Table
    requires i < |t.slots| && t.slots[i].port.Of? && t.slots[i].port.id in t.ports
  {
    var id := t.slots[i].port.id;
    var p := t.ports[id];
    if |t.slots[i].queue| < t.depth
    then t.(slots := t.slots[i := t.slots[i].(queue := t.slots[i].queue + [CopyFor(p, f)])])
    else t.(ports := t.ports[id := p.(dropped := p.dropped + 1)])
  }

  predicate Candidate(t: Table, i: nat, src: nat) {
    i < |t.slots| && t.slots[i].port.Of? && t.slots[i].port.id != src && t.slots[i].port.id in t.ports
  }

  predicate FirstPass(t: Table, i: nat, src: nat, f: Frame) {
    Candidate(t, i, src) && Eligible(t.ports[t.slots[i].port.id], f)
  }

  /** A first-pass port other than a promiscuous one. */
  predicate Match(t: Table, i: nat, src: nat, f: Frame) {
    FirstPass(t, i, src, f) && t.ports[t.slots[i].port.id].mode != Promiscuous
  }

  predicate SecondPass(t: Table, i: nat, src: nat) {
    Candidate(t, i, src) && t.ports[t.slots[i].port.id].mode == Default
  }

  // ---- The delivery as a set ---------------------------------------------------------------------------------

  ghost predicate AnyMatch(t: Table, src: nat, f: Frame) { exists i :: Match(t, i, src, f) }

  /** The slots a frame is offered to: the promiscuous and the matching addressed ports, and the default port only
      when no addressed port matches; never the sender. */
  ghost function Recipients(t: Table, src: nat, f: Frame): set<nat> {
    set i | 0 <= i < |t.slots| && (FirstPass(t, i, src, f) || (SecondPass(t, i, src) && !AnyMatch(t, src, f)))
  }

  /** Table u is table t after each slot of `to` has been offered the frame once: the copy is at the end of its queue,
      or the queue was full and the port has counted one more drop; nothing else has changed. */
  ghost predicate OfferedTo(t: Table, u: Table, to: set<nat>, f: Frame)
    requires Inv(t)
  {
    && |u.slots| == |t.slots| && u.depth == t.depth && u.ports.Keys == t.ports.Keys
    && (forall i :: 0 <= i < |t.slots| ==>
          u.slots[i] == if i in to && t.slots[i].port.Of? && |t.slots[i].queue| < t.depth
                        then t.slots[i].(queue := t.slots[i].queue + [CopyFor(t.ports[t.slots[i].port.id], f)])
                        else t.slots[i])
    && (forall i :: 0 <= i < |t.slots| && t.slots[i].port.Of? ==>
          u.ports[t.slots[i].port.id] ==
              DropCounted(t.ports[t.slots[i].port.id], i in to && |t.slots[i].queue| >= t.depth))
    && (forall id :: id in t.ports && !Registered(t, id) ==> u.ports[id] == t.ports[id])
  }

  function DropCounted(p: Port, one: bool): Port { if one then p.(dropped := p.dropped + 1) else p }

  // ---- Steps -------------------------------------------------------------------------------------------------

  datatype Event =
    | Create(id: nat, port: Port)
    | Registers(id: nat)
    | Removes(id: nat, stopped: bool)
    | TaskGone(slot: nat)
    | Transmits(slot: nat)
    | Sends(src: nat, frame: Frame)

  /** Applications prepare a port object only while it is not registered. */
  ghost predicate Enabled(t: Table, e: Event) {
    match e
    case Create(id, p) => !Registered(t, id)
    case Registers(id) => id in t.ports
    case Removes(id, _) => true
    case TaskGone(i) => i < |t.slots| && t.slots[i].port == Nobody
    case Transmits(i) => i < |t.slots| && t.slots[i].queue != []
    case Sends(src, f) => src in t.ports
  }

  /** The port task takes one frame from its queue and hands it to the port, if there is still one. */
  function Transmit(t: Table, i: nat): Table
    requires i < |t.slots| && t.slots[i].queue != [] && (t.slots[i].port.Of? ==> t.slots[i].port.id in t.ports)
  {
    var s := t.slots[i];
    var t1 := t.(slots := t.slots[i := s.(queue := s.queue[1..])]);
    if s.port.Nobody? then t1
    else
      var p := t.ports[s.port.id];
      t1.(ports := t.ports[s.port.id := p.(sent := p.sent + 1, bytes := p.bytes +
          FrameCodec.FrameByteCount(s.queue[0]))])
  }

  /** u is the table after e.  For a send it is the table with the recipients offered the frame. */
  ghost predicate Step(t: Table, e: Event, u: Table)
    requires Inv(t) && Enabled(t, e)
  {
    match e
    case Create(id, p) => u == t.(ports := t.ports[id := p])
    case Registers(id) => u == Register(t, id).0
    case Removes(id, stopped) => u == Remove(t, id, stopped).0
    case TaskGone(i) => u == t.(slots := t.slots[i := t.slots[i].(idle := true)])
    case Transmits(i) => u == Transmit(t, i)
    case Sends(src, f) => Inv(Bind(t, src, f)) && OfferedTo(Bind(t, src, f), u, Recipients(Bind(t, src, f), src, f), f)
  }
}

/** The router as the source writes it: one slot table changed by loops.  Each method is proved to do what RouterSpec
    says, the two delivery passes in particular to offer the frame to exactly the set of recipients, once each. */
module Router {
  import opened Ax25Types
  import opened RouterSpec
  import RouterProofs

  class PortRouter {
    const slots: array<Slot>
    const depth: nat
    var ports: map<nat, Port>

    ghost function Snapshot(): Table
      reads this, slots
    {
      Table(slots[..], ports, depth)
    }

    /** `ax25_router_init`: both sizes are raised to at least 1. */
    constructor (maxPorts: nat, queueDepth: nat)
      ensures fresh(slots) && slots.Length >= 1 && depth >= 1 && (maxPorts >= 1 ==> slots.Length == maxPorts)
      ensures Inv(Snapshot()) && ports == map[]
    {
      slots := new Slot[if maxPorts < 1 then 1 else maxPorts](_ => Slot(Nobody, false, true, []));
      depth := if queueDepth < 1 then 1 else queueDepth;
      ports := map[];
    }

    /** `alloc_port_slot`. */
    method Alloc() returns (k: nat)
      ensures k == AllocSlot(slots[..])
    {
      var i := 0;
      while i < slots.Length
        invariant i <= slots.Length && FreshFrom(slots[..], 0) == FreshFrom(slots[..], i)
      {
        if slots[i].port == Nobody && !slots[i].retired { return i; }
        i := i + 1;
      }
      i := 0;
      while i < slots.Length
        invariant i <= slots.Length && ReclaimableFrom(slots[..], 0) == ReclaimableFrom(slots[..], i)
      {
        if slots[i].port == Nobody && slots[i].retired && slots[i].idle { return i; }
        i := i + 1;
      }
      return slots.Length;
    }

    /** `ax25_router_register_port`. */
    method RegisterPort(id: nat) returns (code: Code)
      requires Inv(Snapshot()) && id in ports
      modifies this`ports, slots
      ensures Inv(old(Snapshot())) && Snapshot() == Register(old(Snapshot()), id).0
              && code == Register(old(Snapshot()), id).1
      ensures Inv(Snapshot())
    {
      ghost var t := Snapshot();
      RouterProofs.RegisterKeeps(t, id);
      var port := ports[id];
      for i := 0 to slots.Length
        invariant Snapshot() == t
        invariant forall j :: 0 <= j < i && slots[j].port.Of? ==>
                  Compatible(id, port, slots[j].port.id, ports[slots[j].port.id])
      {
        if slots[i].port == Nobody { continue; }
        var other := ports[slots[i].port.id];
        if slots[i].port.id == id { return InvalidState; }
        if port.mode == Default && other.mode == Default { return InvalidState; }
        if (port.mode == Static || port.mode == Digipeater) && (other.mode == Static || other.mode == Digipeater)
           && SameStation(port.destination, other.destination) { return InvalidState; }
      }
      assert Admissible(t, id);
      var k := Alloc();
      if k == slots.Length { return NoMem; }
      slots[k] := Slot(Of(id), false, false, []);
      ports := ports[id := port.(sent := 0, bytes := 0, dropped := 0)];
      assert slots[..] == t.slots[k := slots[k]];
      return OK;
    }

    /** `ax25_router_remove_port`; `stopped` says whether the port's task stopped in time. */
    method RemovePort(id: nat, stopped: bool) returns (found: bool)
      requires Inv(Snapshot())
      modifies slots
      ensures Snapshot() == Remove(old(Snapshot()), id, stopped).0 && found == Remove(old(Snapshot()), id, stopped).1
      ensures Inv(Snapshot()) && !Registered(Snapshot(), id)
    {
      ghost var t := Snapshot();
      RouterProofs.RemoveKeeps(t, id, stopped);
      var i := 0;
      while i < slots.Length && slots[i].port != Of(id)
        invariant i <= slots.Length && FindSlot(slots[..], id, 0) == FindSlot(slots[..], id, i)
      {
        i := i + 1;
      }
      if i == slots.Length { return false; }
      slots[i] := Slot(Nobody, true, stopped, if stopped then [] else slots[i].queue);
      assert slots[..] == t.slots[i := slots[i]];
      return true;
    }

    /** `enqueue_tx_frame_for_port`. */
    method OfferFrame(i: nat, f: Frame, next: nat)
      requires i < slots.Length && slots[i].port.Of? && slots[i].port.id in ports && next == NextDigi(f.digipeaters)
      modifies this`ports, slots
      ensures Snapshot() == Offer(old(Snapshot()), i, f)
    {
      ghost var t := Snapshot();
      var id := slots[i].port.id;
      var copy := f;
      if ports[id].mode == Digipeater && next < |f.digipeaters| {
        copy := f.(digipeaters := f.digipeaters[next := f.digipeaters[next].(repeated := true)]);
      }
      if |slots[i].queue| < depth {
        slots[i] := slots[i].(queue := slots[i].queue + [copy]);
        assert slots[..] == t.slots[i := slots[i]];
      } else {
        ports := ports[id := ports[id].(dropped := ports[id].dropped + 1)];
      }
    }

    /** `next_digipeater_index`, with the length of the path for none. */
    method NextIndex(f: Frame) returns (k: nat)
      ensures k == NextDigi(f.digipeaters)
    {
      k := 0;
      while k < |f.digipeaters| && f.digipeaters[k].repeated
        invariant k <= |f.digipeaters| && NextDigi(f.digipeaters) == k + NextDigi(f.digipeaters[k..])
      {
        assert f.digipeaters[k..][1..] == f.digipeaters[k + 1..];
        k := k + 1;
      }
    }

    /** `ax25_router_send`. */
    method Send(f: Frame, src: nat)
      requires Inv(Snapshot()) && src in ports
      modifies this`ports, slots
      ensures Inv(old(Snapshot())) && Step(old(Snapshot()), Sends(src, f), Snapshot())
      ensures Inv(Snapshot())
    {
      hide Inv, OfferedTo, AnyMatch, Recipients, FirstSet, SecondSet;
      RouterProofs.BindKeeps(Snapshot(), src, f);
      var next := NextIndex(f);
      if ports[src].mode == Dynamic && ports[src].destination.callsign == [] {
        ports := ports[src := ports[src].(destination := f.source)];
      }
      ghost var t := Snapshot();
      var matched := PassOne(f, src, next);
      if !matched { PassTwo(t, f, src, next); }
      RecipientsSplit(t, src, f);
      RouterProofs.OfferedKeeps(t, Snapshot(), Recipients(t, src, f), f);
    }

    method PassOne(f: Frame, src: nat, next: nat) returns (matched: bool)
      requires Inv(Snapshot()) && src in ports && next == NextDigi(f.digipeaters)
      modifies this`ports, slots
      ensures Inv(old(Snapshot()))
              && OfferedTo(old(Snapshot()), Snapshot(), FirstSet(old(Snapshot()), src, f, slots.Length), f)
      ensures matched <==> AnyMatch(old(Snapshot()), src, f)
    {
      hide Inv, OfferedTo, Eligible, FirstSet, MatchBefore, AnyMatch;
      ghost var t := Snapshot();
      matched := false;
      MatchEnds(t, src, f);
      OfferedNone(t, FirstSet(t, src, f, 0), f);
      for i := 0 to slots.Length
        invariant OfferedTo(t, Snapshot(), FirstSet(t, src, f, i), f)
        invariant matched <==> MatchBefore(t, src, f, i)
      {
        SameView(t, Snapshot(), FirstSet(t, src, f, i), f, i);
        FirstSetStep(t, src, f, i);
        var ref := slots[i].port;
        if ref == Nobody || ref.id == src { continue; }
        var port := ports[ref.id];
        EligibleAs(t.ports[ref.id], port, f);
        if !Eligible(port, f) { continue; }
        if port.mode == Static || port.mode == Digipeater || (port.mode == Dynamic && port.destination.callsign != []) {
          matched := true;
        }
        assert i !in FirstSet(t, src, f, i) by { NotYet(t, src, f, i); }
        OfferStep(t, Snapshot(), FirstSet(t, src, f, i), f, i);
        OfferFrame(i, f, next);
      }
    }

    /** The second pass continues on the table the first has left. */
    method PassTwo(ghost t: Table, f: Frame, src: nat, next: nat)
      requires Inv(t) && src in t.ports && next == NextDigi(f.digipeaters)
      requires OfferedTo(t, Snapshot(), FirstSet(t, src, f, slots.Length), f) && |t.slots| == slots.Length
      modifies this`ports, slots
      ensures OfferedTo(t, Snapshot(), FirstSet(t, src, f, slots.Length) + SecondSet(t, src, slots.Length), f)
    {
      hide Inv, OfferedTo, Eligible, FirstSet;
      ghost var first := FirstSet(t, src, f, slots.Length);
      assert SecondSet(t, src, 0) == {} && first + {} == first;
      for i := 0 to slots.Length
        invariant OfferedTo(t, Snapshot(), first + SecondSet(t, src, i), f)
      {
        SameView(t, Snapshot(), first + SecondSet(t, src, i), f, i);
        SecondSetStep(t, src, f, i);
        var ref := slots[i].port;
        if ref == Nobody || ref.id == src { continue; }
        if ports[ref.id].mode == Default {
          DefaultNotFirst(t, src, f, i);
          assert i !in SecondSet(t, src, i);
          OfferStep(t, Snapshot(), first + SecondSet(t, src, i), f, i);
          OfferFrame(i, f, next);
          assert first + SecondSet(t, src, i) + {i} == first + (SecondSet(t, src, i) + {i});
        }
      }
    }
  }

  // ---- The sets the loops have covered -----------------------------------------------------------------------------

  ghost function FirstSet(t: Table, src: nat, f: Frame, n: nat): set<nat> {
    set i | 0 <= i < n && FirstPass(t, i, src, f)
  }

  ghost function SecondSet(t: Table, src: nat, n: nat): set<nat> {
    set i | 0 <= i < n && SecondPass(t, i, src)
  }

  lemma FirstSetStep(t: Table, src: nat, f: Frame, i: nat)
    ensures FirstSet(t, src, f, i + 1) == if FirstPass(t, i, src, f) then FirstSet(t, src, f, i) + {i}
            else FirstSet(t, src, f, i)
    ensures MatchBefore(t, src, f, i + 1) <==> MatchBefore(t, src, f, i) || Match(t, i, src, f)
  {
  }

  ghost predicate MatchBefore(t: Table, src: nat, f: Frame, n: nat) { exists j :: 0 <= j < n && Match(t, j, src, f) }

  lemma MatchEnds(t: Table, src: nat, f: Frame)
    ensures MatchBefore(t, src, f, |t.slots|) <==> AnyMatch(t, src, f)
    ensures !MatchBefore(t, src, f, 0) && FirstSet(t, src, f, 0) == {}
  {
  }

  lemma NotYet(t: Table, src: nat, f: Frame, i: nat)
    ensures i !in FirstSet(t, src, f, i)
  {
  }

  lemma SecondSetStep(t: Table, src: nat, f: Frame, i: nat)
    ensures SecondSet(t, src, i + 1) == if SecondPass(t, i, src) then SecondSet(t, src, i) + {i}
            else SecondSet(t, src, i)
  {
  }

  lemma RecipientsSplit(t: Table, src: nat, f: Frame)
    ensures var n := |t.slots|;
            Recipients(t, src, f) == if AnyMatch(t, src, f) then FirstSet(t, src, f, n)
                else FirstSet(t, src, f, n) + SecondSet(t, src, n)
  {
  }

  lemma DefaultNotFirst(t: Table, src: nat, f: Frame, i: nat)
    requires SecondPass(t, i, src)
    ensures !FirstPass(t, i, src, f) && forall n :: i !in FirstSet(t, src, f, n)
  {
  }

  lemma OfferedNone(t: Table, none: set<nat>, f: Frame)
    requires Inv(t) && none == {}
    ensures OfferedTo(t, t, none, f)
  {
  }

  /** Part of a send does not change what the rest of it looks at. */
  lemma SameView(t: Table, u: Table, to: set<nat>, f: Frame, i: nat)
    requires Inv(t) && OfferedTo(t, u, to, f) && i < |t.slots|
    ensures |u.slots| == |t.slots| && u.slots[i].port == t.slots[i].port && u.ports.Keys == t.ports.Keys
    ensures t.slots[i].port.Of? ==> var id := t.slots[i].port.id;
              id in t.ports && u.ports[id].mode == t.ports[id].mode
                  && u.ports[id].destination == t.ports[id].destination
  {
    RouterProofs.OfferedKeeps(t, u, to, f);
  }

  lemma EligibleAs(p: Port, q: Port, f: Frame)
    requires p.mode == q.mode && p.destination == q.destination
    ensures Eligible(p, f) == Eligible(q, f) && CopyFor(p, f) == CopyFor(q, f)
    ensures Eligible(p, f) ==> p.mode != Default && (p.mode == Dynamic ==> Bound(p))
  {
  }

  lemma OfferStep(t: Table, u: Table, to: set<nat>, f: Frame, i: nat)
    requires Inv(t) && OfferedTo(t, u, to, f) && i < |t.slots| == |u.slots| && i !in to
    requires u.slots[i].port == t.slots[i].port && t.slots[i].port.Of? && t.slots[i].port.id in u.ports
    ensures OfferedTo(t, Offer(u, i, f), to + {i}, f)
  {
    hide CopyFor, Compatible, Inv;
    OfferSlots(t, u, to, f, i);
    OfferPorts(t, u, to, f, i);
  }

  lemma OfferSlots(t: Table, u: Table, to: set<nat>, f: Frame, i: nat)
    requires Inv(t) && OfferedTo(t, u, to, f) && i < |t.slots| == |u.slots| && i !in to
    requires u.slots[i].port == t.slots[i].port && t.slots[i].port.Of? && t.slots[i].port.id in u.ports
    ensures var v := Offer(u, i, f);
            forall j :: 0 <= j < |t.slots| ==>
              v.slots[j] == if j in to + {i} && t.slots[j].port.Of? && |t.slots[j].queue| < t.depth
                            then t.slots[j].(queue := t.slots[j].queue + [CopyFor(t.ports[t.slots[j].port.id], f)])
                            else t.slots[j]
  {
    hide CopyFor, Compatible;
    var id := t.slots[i].port.id;
    assert u.ports[id] == t.ports[id] && u.slots[i] == t.slots[i];
    SameCopy(u.ports[id], t.ports[id], f);
  }

  lemma OfferPorts(t: Table, u: Table, to: set<nat>, f: Frame, i: nat)
    requires Inv(t) && OfferedTo(t, u, to, f) && i < |t.slots| == |u.slots| && i !in to
    requires u.slots[i].port == t.slots[i].port && t.slots[i].port.Of? && t.slots[i].port.id in u.ports
    ensures var v := Offer(u, i, f);
            && v.ports.Keys == t.ports.Keys && v.depth == t.depth && |v.slots| == |t.slots|
            && (forall j :: 0 <= j < |t.slots| && t.slots[j].port.Of? ==>
                  v.ports[t.slots[j].port.id] ==
                      DropCounted(t.ports[t.slots[j].port.id], j in to + {i} && |t.slots[j].queue| >= t.depth))
            && (forall id :: id in t.ports && !Registered(t, id) ==> v.ports[id] == t.ports[id])
  {
    hide CopyFor, Compatible;
    var id := t.slots[i].port.id;
    var v := Offer(u, i, f);
    assert u.ports[id] == t.ports[id] && u.slots[i] == t.slots[i];
    forall j | 0 <= j < |t.slots| && j != i && t.slots[j].port.Of?
      ensures t.slots[j].port.id != id && v.ports[t.slots[j].port.id] == u.ports[t.slots[j].port.id]
    {
      OtherPort(t, i, j);
    }
    assert Registered(t, id);
  }

  lemma SameCopy(p: Port, q: Port, f: Frame)
    requires p == q
    ensures CopyFor(p, f) == CopyFor(q, f)
  {
  }

  lemma OtherPort(t: Table, i: nat, j: nat)
    requires Inv(t) && i < |t.slots| && j < |t.slots| && i != j && t.slots[i].port.Of? && t.slots[j].port.Of?
    ensures t.slots[i].port.id != t.slots[j].port.id
  {
    if i < j {
      assert Compatible(t.slots[i].port.id, t.ports[t.slots[i].port.id], t.slots[j].port.id,
             t.ports[t.slots[j].port.id]);
    }
    else {
      assert Compatible(t.slots[j].port.id, t.ports[t.slots[j].port.id], t.slots[i].port.id,
             t.ports[t.slots[i].port.id]);
    }
  }
}

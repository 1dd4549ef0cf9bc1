/** The client manager's locked sections as the source writes them: three parallel arrays changed by loops. */
module Clients {
  import opened ClientsSpec
  import opened ClientsProofs

  class Manager {
    const clients: array<Ref>
    const refcnt: array<nat>
    const leaving: array<bool>

    /** The clients whose `initialized` flag is set. */
    var heap: set<nat>

    /** The clients in the hands of a freeing thread, and what the dispatching threads have still to do. */
    ghost var doomed: set<nat>
    ghost var dispatches: seq<seq<Target>>

    ghost predicate Separate() {
      refcnt.Length == clients.Length && leaving.Length == clients.Length
    }

    ghost function Snapshot(): Sys
      reads this, clients, refcnt, leaving
    {
      Sys(clients[..], refcnt[..], leaving[..], heap, doomed, dispatches)
    }

    constructor (n: nat)
      ensures fresh(clients) && fresh(refcnt) && fresh(leaving) && Separate() && Snapshot() == Start(n)
    {
      clients := new Ref[n](_ => Null);
      refcnt := new nat[n](_ => 0);
      leaving := new bool[n](_ => false);
      heap, doomed, dispatches := {}, {}, [];
      new;
      assert clients[..] == Start(n).clients && refcnt[..] == Start(n).refcnt && leaving[..] == Start(n).leaving;
    }

    /** `ax25_agwpe_server_add_client`, for a client at a newly allocated address. */
    method AddClient(c: nat) returns (ok: bool)
      requires Separate()
      modifies this, clients, refcnt, leaving
      ensures Snapshot() == Add(old(Snapshot()), c).0 && ok == Add(old(Snapshot()), c).1
      ensures ok <==> exists i :: 0 <= i < clients.Length && old(clients[..])[i] == Null
      ensures ok ==>
                exists i ::
                  0 <= i < clients.Length && old(clients[..])[i] == Null && clients[..] == old(clients[..])[i := Of(c)]
    {
      ghost var s := Snapshot();
      AddAccepts(s, c);
      var k := 0;
      while k < clients.Length && clients[k] != Null
        invariant k <= clients.Length && FreeSlot(clients[..], 0) == FreeSlot(clients[..], k)
      {
        k := k + 1;
      }
      if k == clients.Length { return false; }
      clients[k] := Of(c);
      refcnt[k] := 0;
      leaving[k] := false;
      heap := heap + {c};
      assert clients[..] == s.clients[k := Of(c)] && refcnt[..] == s.refcnt[k := 0]
             && leaving[..] == s.leaving[k := false];
      return true;
    }

    /** The locked section of `ax25_agwpe_server_remove_client`; `free` tells the caller to free the client. */
    method RemoveClient(c: nat) returns (free: bool)
      requires Separate()
      modifies this, clients, leaving
      ensures Snapshot() == Remove(old(Snapshot()), c).0 && free == Remove(old(Snapshot()), c).1
    {
      ghost var s := Snapshot();
      var k := 0;
      while k < clients.Length && clients[k] != Of(c)
        invariant k <= clients.Length && SlotOf(clients[..], c, 0) == SlotOf(clients[..], c, k)
      {
        k := k + 1;
      }
      if k == clients.Length { return false; }
      leaving[k] := true;
      if refcnt[k] == 0 {
        clients[k] := Null;
        leaving[k] := false;
        doomed := doomed + {c};
        assert clients[..] == s.clients[k := Null] && leaving[..] == s.leaving[k := false];
        return true;
      }
      assert leaving[..] == s.leaving[k := true];
      return false;
    }

    /** The collecting section of `manager_router_on_frame`. */
    method CollectTargets() returns (targets: seq<Target>)
      requires Separate()
      modifies this, refcnt
      ensures Snapshot() == Collect(old(Snapshot())) && targets == Targets(clients[..], leaving[..], heap, 0)
    {
      ghost var s := Snapshot();
      targets := [];
      for i := 0 to clients.Length
        modifies refcnt
        invariant targets + Targets(s.clients, s.leaving, s.heap, i) == Targets(s.clients, s.leaving, s.heap, 0)
        invariant forall j :: 0 <= j < i ==>
                  refcnt[j] == s.refcnt[j] + if Collectable(s.clients, s.leaving, s.heap, j) then 1 else 0
        invariant forall j :: i <= j < refcnt.Length ==> refcnt[j] == s.refcnt[j]
      {
        if clients[i] != Null && clients[i].id in heap && !leaving[i] {
          refcnt[i] := refcnt[i] + 1;
          targets := targets + [Target(clients[i].id, i)];
        }
      }
      assert targets + [] == targets;
      dispatches := dispatches + [targets];
      assert refcnt[..] == Collect(s).refcnt;
    }

    /** The locked section after a target has been served. */
    method FinishTarget(t: Target, ghost d: nat) returns (free: bool)
      requires Separate() && d < |dispatches| && dispatches[d] != [] && t == dispatches[d][0]
      modifies this, clients, refcnt, leaving
      ensures Snapshot() == Finish(old(Snapshot()), d).0 && free == Finish(old(Snapshot()), d).1
    {
      ghost var s := Snapshot();
      dispatches := dispatches[d := dispatches[d][1..]];
      if t.idx >= clients.Length { return false; }
      if refcnt[t.idx] > 0 { refcnt[t.idx] := refcnt[t.idx] - 1; }
      assert refcnt[..] == s.refcnt[t.idx := refcnt[t.idx]];
      if refcnt[t.idx] == 0 && leaving[t.idx] && clients[t.idx] == Of(t.client) {
        clients[t.idx] := Null;
        leaving[t.idx] := false;
        doomed := doomed + {t.client};
        assert clients[..] == s.clients[t.idx := Null] && leaving[..] == s.leaving[t.idx := false];
        return true;
      }
      return false;
    }
  }
}

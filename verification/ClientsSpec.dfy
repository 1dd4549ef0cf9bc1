/** The AGWPE server's client manager: a table of clients that is used by any number of frame dispatches at a time while
    clients come and go.  Each locked section is one step; memory is part of the state. */
module ClientsSpec {

  datatype Ref = Null | Of(id: nat)

  /** A client a dispatch has collected and not yet finished with, and its slot. */
  datatype Target = Target(client: nat, idx: nat)

  /** `heap` holds the clients that are allocated and initialised (both end in one step, that of the freeing thread),
      `doomed` those taken out of the table by a thread that has yet to free them; `dispatches` lists what each
      dispatch has still to do. */
  datatype Sys = Sys(clients: seq<Ref>, refcnt: seq<nat>, leaving: seq<bool>, heap: set<nat>, doomed: set<nat>,
                     dispatches: seq<seq<Target>>)

  function Start(n: nat): Sys { Sys(seq(n, _ => Null), seq(n, _ => 0), seq(n, _ => false), {}, {}, []) }

  predicate Shaped(s: Sys) { |s.refcnt| == |s.clients| && |s.leaving| == |s.clients| }

  function FreeSlot(clients: seq<Ref>, i: nat): (k: nat)
    requires i <= |clients|
    ensures i <= k <= |clients| && (k < |clients| ==> clients[k] == Null) && forall j :: i <= j < k ==>
            clients[j] != Null
    decreases |clients| - i
  {
    if i == |clients| || clients[i] == Null then i else FreeSlot(clients, i + 1)
  }

  function SlotOf(clients: seq<Ref>, c: nat, i: nat): (k: nat)
    requires i <= |clients|
    ensures i <= k <= |clients| && (k < |clients| ==> clients[k] == Of(c)) && forall j :: i <= j < k ==>
            clients[j] != Of(c)
    decreases |clients| - i
  {
    if i == |clients| || clients[i] == Of(c) then i else SlotOf(clients, c, i + 1)
  }

  /** `ax25_agwpe_server_add_client` for a newly allocated client; without a free slot it is given back at once. */
  function Add(s: Sys, c: nat): (Sys, bool)
    requires Shaped(s)
  {
    var k := FreeSlot(s.clients, 0);
    if k == |s.clients| then (s, false)
    else (s.(clients := s.clients[k := Of(c)], refcnt := s.refcnt[k := 0], leaving := s.leaving[k := false],
      heap := s.heap + {c}), true)
  }

  /** The locked section of `ax25_agwpe_server_remove_client`; true when the caller goes on to free the client. */
  function Remove(s: Sys, c: nat): (Sys, bool)
    requires Shaped(s)
  {
    var k := SlotOf(s.clients, c, 0);
    if k == |s.clients| then (s, false)
    else if s.refcnt[k] == 0 then
      (s.(clients := s.clients[k := Null], leaving := s.leaving[k := false], doomed := s.doomed + {c}), true)
    else (s.(leaving := s.leaving[k := true]), false)
  }

  /** The three tests of the collecting loop; the second reads the client's `initialized` flag. */
  predicate Collectable(clients: seq<Ref>, leaving: seq<bool>, heap: set<nat>, i: nat)
    requires |leaving| == |clients|
  {
    i < |clients| && clients[i] != Null && clients[i].id in heap && !leaving[i]
  }

  /** The targets a dispatch collects from slot i on. */
  function Targets(clients: seq<Ref>, leaving: seq<bool>, heap: set<nat>, i: nat): seq<Target>
    requires |leaving| == |clients| && i <= |clients|
    decreases |clients| - i
  {
    if i == |clients| then []
    else
      (if Collectable(clients, leaving, heap, i) then [Target(clients[i].id, i)] else [])
      + Targets(clients, leaving, heap, i + 1)
  }

  /** The first locked section of `manager_router_on_frame`. */
  function Collect(s: Sys): Sys
    requires Shaped(s)
  {
    s.(refcnt := seq(|s.refcnt|, i requires 0 <= i < |s.refcnt| => s.refcnt[i] +
        if Collectable(s.clients, s.leaving, s.heap, i) then 1 else 0),
       dispatches := s.dispatches + [Targets(s.clients, s.leaving, s.heap, 0)])
  }

  /** The locked section after one target of dispatch d has been served; true when the dispatch goes on to free it. */
  function Finish(s: Sys, d: nat): (Sys, bool)
    requires Shaped(s) && d < |s.dispatches| && s.dispatches[d] != []
  {
    var t := s.dispatches[d][0];
    var s1 := s.(dispatches := s.dispatches[d := s.dispatches[d][1..]]);
    if t.idx >= |s.clients| then (s1, false)
    else
      var left := if s.refcnt[t.idx] > 0 then s.refcnt[t.idx] - 1 else 0;
      var s2 := s1.(refcnt := s.refcnt[t.idx := left]);
      if left == 0 && s.leaving[t.idx] && s.clients[t.idx] == Of(t.client)
      then (s2.(clients := s.clients[t.idx := Null], leaving := s.leaving[t.idx := false], doomed := s.doomed +
          {t.client}), true)
      else (s2, false)
  }

  datatype Event = Added(c: nat) | Removed(c: nat) | Freed(c: nat) | Collected | Finished(d: nat)

  /** An allocation returns an address not in use; only the thread that took a client out of the table frees it. */
  predicate Enabled(s: Sys, e: Event) {
    match e
    case Added(c) => c !in s.heap
    case Removed(c) => true
    case Freed(c) => c in s.doomed
    case Collected => true
    case Finished(d) => d < |s.dispatches| && s.dispatches[d] != []
  }

  function Step(s: Sys, e: Event): Sys
    requires Shaped(s) && Enabled(s, e)
  {
    match e
    case Added(c) => Add(s, c).0
    case Removed(c) => Remove(s, c).0
    case Freed(c) => s.(heap := s.heap - {c}, doomed := s.doomed - {c})
    case Collected => Collect(s)
    case Finished(d) => Finish(s, d).0
  }

  // ---- What every interleaving keeps -------------------------------------------------------------------------

  function Hits(d: seq<Target>, i: nat): nat {
    if d == [] then 0 else (if d[0].idx == i then 1 else 0) + Hits(d[1..], i)
  }

  /** The in-flight targets of slot i, over all dispatches. */
  function InFlight(ds: seq<seq<Target>>, i: nat): nat {
    if ds == [] then 0 else InFlight(ds[..|ds| - 1], i) + Hits(ds[|ds| - 1], i)
  }

  ghost predicate TargetsInv(s: Sys) {
    forall d, k :: 0 <= d < |s.dispatches| && 0 <= k < |s.dispatches[d]| ==> InPlace(s, s.dispatches[d][k])
  }

  /** The target's client is still in the same slot. */
  predicate InPlace(s: Sys, t: Target) { t.idx < |s.clients| && s.clients[t.idx] == Of(t.client) }

  ghost predicate TableInv(s: Sys) {
    && Shaped(s)
    && (forall i, j :: 0 <= i < j < |s.clients| && s.clients[i].Of? ==> s.clients[i] != s.clients[j])
    && (forall i :: 0 <= i < |s.clients| && s.clients[i].Of? ==>
       s.clients[i].id in s.heap
       && s.clients[i].id !in s.doomed)
    && s.doomed <= s.heap
    && (forall c :: c in s.heap ==> c in s.doomed || Of(c) in s.clients)
    && (forall i :: 0 <= i < |s.clients| && s.leaving[i] ==> s.clients[i].Of? && s.refcnt[i] > 0)
  }

  ghost predicate CountInv(s: Sys)
    requires Shaped(s)
  {
    forall i :: 0 <= i < |s.clients| ==> s.refcnt[i] == InFlight(s.dispatches, i)
  }

  ghost predicate Inv(s: Sys) { TableInv(s) && TargetsInv(s) && CountInv(s) }
}

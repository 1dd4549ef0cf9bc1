/** The client manager under any interleaving: exact reference counts, no use after free, no leak and no double free. */
module ClientsProofs {
  import opened ClientsSpec

  lemma StartInv(n: nat)
    ensures Inv(Start(n))
  {
  }

  // ---- Counting in-flight targets -----------------------------------------------------------------------

  lemma {:induction false} InFlightUpdate(ds: seq<seq<Target>>, d: nat, x: seq<Target>, i: nat)
    requires d < |ds|
    ensures InFlight(ds[d := x], i) + Hits(ds[d], i) == InFlight(ds, i) + Hits(x, i)
  {
    var n := |ds| - 1;
    if d == n {
      assert ds[d := x][..n] == ds[..n];
    } else {
      assert ds[d := x][..n] == ds[..n][d := x];
      InFlightUpdate(ds[..n], d, x, i);
    }
  }

  lemma InFlightAppend(ds: seq<seq<Target>>, x: seq<Target>, i: nat)
    ensures InFlight(ds + [x], i) == InFlight(ds, i) + Hits(x, i)
  {
    assert (ds + [x])[..|ds|] == ds;
  }

  lemma {:induction false} HitsPositive(d: seq<Target>, i: nat)
    ensures Hits(d, i) > 0 <==> exists k :: 0 <= k < |d| && d[k].idx == i
  {
    if d != [] {
      HitsPositive(d[1..], i);
      if exists k :: 0 <= k < |d| && d[k].idx == i {
        var k :| 0 <= k < |d| && d[k].idx == i;
        if k > 0 { assert d[1..][k - 1].idx == i; }
      }
      if Hits(d[1..], i) > 0 {
        var k :| 0 <= k < |d[1..]| && d[1..][k].idx == i;
        assert d[k + 1].idx == i;
      }
    }
  }

  lemma {:induction false} InFlightPositive(ds: seq<seq<Target>>, i: nat)
    ensures InFlight(ds, i) > 0 <==> exists d, k :: 0 <= d < |ds| && 0 <= k < |ds[d]| && ds[d][k].idx == i
  {
    if ds != [] {
      var n := |ds| - 1;
      InFlightPositive(ds[..n], i);
      HitsPositive(ds[n], i);
      if exists d, k :: 0 <= d < |ds| && 0 <= k < |ds[d]| && ds[d][k].idx == i {
        var d, k :| 0 <= d < |ds| && 0 <= k < |ds[d]| && ds[d][k].idx == i;
        if d < n { assert ds[..n][d][k].idx == i; }
      }
      if InFlight(ds[..n], i) > 0 {
        var d, k :| 0 <= d < n && 0 <= k < |ds[..n][d]| && ds[..n][d][k].idx == i;
        assert ds[d][k].idx == i;
      }
    }
  }

  /** A dispatch collects each slot at most once, exactly the occupied ones that nobody has asked to remove. */
  lemma {:induction false} TargetsOnce(clients: seq<Ref>, leaving: seq<bool>, heap: set<nat>, n: nat, i: nat)
    requires |leaving| == |clients| && n <= |clients|
    ensures Hits(Targets(clients, leaving, heap, n), i) ==
            if i >= n && Collectable(clients, leaving, heap, i) then 1 else 0
    decreases |clients| - n
  {
    if n < |clients| {
      TargetsOnce(clients, leaving, heap, n + 1, i);
      var rest := Targets(clients, leaving, heap, n + 1);
      var all := Targets(clients, leaving, heap, n);
      if Collectable(clients, leaving, heap, n) {
        assert all == [Target(clients[n].id, n)] + rest && all[1..] == rest;
      } else {
        assert all == rest;
      }
    }
  }

  lemma {:induction false} TargetsInPlace(clients: seq<Ref>, leaving: seq<bool>, heap: set<nat>, n: nat)
    requires |leaving| == |clients| && n <= |clients|
    ensures forall k :: 0 <= k < |Targets(clients, leaving, heap, n)| ==>
              var t := Targets(clients, leaving, heap, n)[k]; n <= t.idx < |clients| && clients[t.idx] == Of(t.client)
    decreases |clients| - n
  {
    if n < |clients| { TargetsInPlace(clients, leaving, heap, n + 1); }
  }

  /** The test of the `initialized` flag excludes nobody: every client in the table is initialised. */
  lemma CollectsOccupied(s: Sys, i: nat)
    requires Inv(s)
    ensures Collectable(s.clients, s.leaving, s.heap, i) <==> i < |s.clients| && s.clients[i].Of? && !s.leaving[i]
  {
  }

  // ---- Steps ------------------------------------------------------------------------------------------------

  lemma AddKeeps(s: Sys, c: nat)
    requires Inv(s) && c !in s.heap
    ensures Inv(Add(s, c).0)
  {
    var k := FreeSlot(s.clients, 0);
    var s' := Add(s, c).0;
    if k < |s.clients| {
      InFlightPositive(s.dispatches, k);
      forall d, j | 0 <= d < |s.dispatches| && 0 <= j < |s.dispatches[d]| ensures InPlace(s', s.dispatches[d][j]) {
        assert InPlace(s, s.dispatches[d][j]);
      }
      forall x | x in s'.heap ensures x in s'.doomed || Of(x) in s'.clients {
        if x == c { assert s'.clients[k] == Of(c); }
        else if x !in s.doomed {
          var i :| 0 <= i < |s.clients| && s.clients[i] == Of(x);
          assert s'.clients[i] == Of(x);
        }
      }
    }
  }

  /** Emptying slot k, which holds c and is in nobody's hands. */
  lemma Emptied(s: Sys, s': Sys, k: nat, c: nat)
    requires TableInv(s) && k < |s.clients| && s.clients[k] == Of(c)
    requires s' == s.(clients := s.clients[k := Null], leaving := s.leaving[k := false], doomed := s.doomed + {c},
                      refcnt := s'.refcnt, dispatches := s'.dispatches)
    requires |s'.refcnt| == |s.refcnt| && forall i :: 0 <= i < |s.refcnt| && i != k ==> s'.refcnt[i] == s.refcnt[i]
    ensures TableInv(s')
  {
    forall x | x in s'.heap ensures x in s'.doomed || Of(x) in s'.clients {
      if x != c && x !in s.doomed {
        var i :| 0 <= i < |s.clients| && s.clients[i] == Of(x);
        assert s'.clients[i] == Of(x);
      }
    }
  }

  lemma RemoveKeeps(s: Sys, c: nat)
    requires Inv(s)
    ensures Inv(Remove(s, c).0)
  {
    var k := SlotOf(s.clients, c, 0);
    var s' := Remove(s, c).0;
    if k < |s.clients| && s.refcnt[k] == 0 {
      Emptied(s, s', k, c);
      InFlightPositive(s.dispatches, k);
      forall d, j | 0 <= d < |s.dispatches| && 0 <= j < |s.dispatches[d]| ensures InPlace(s', s.dispatches[d][j]) {
        assert InPlace(s, s.dispatches[d][j]);
        assert s.dispatches[d][j].idx != k;
      }
    } else {
      forall d, j | 0 <= d < |s.dispatches| && 0 <= j < |s.dispatches[d]| ensures InPlace(s', s.dispatches[d][j]) {
        assert InPlace(s, s.dispatches[d][j]);
      }
    }
  }

  lemma FreedKeeps(s: Sys, c: nat)
    requires Inv(s) && c in s.doomed
    ensures Inv(Step(s, Freed(c)))
  {
    var s' := Step(s, Freed(c));
    forall d, j | 0 <= d < |s.dispatches| && 0 <= j < |s.dispatches[d]| ensures InPlace(s', s.dispatches[d][j]) {
      assert InPlace(s, s.dispatches[d][j]);
    }
  }

  lemma CollectKeeps(s: Sys)
    requires Inv(s)
    ensures Inv(Collect(s))
  {
    var s' := Collect(s);
    var x := Targets(s.clients, s.leaving, s.heap, 0);
    TargetsInPlace(s.clients, s.leaving, s.heap, 0);
    forall i | 0 <= i < |s.clients| ensures s'.refcnt[i] == InFlight(s'.dispatches, i) {
      TargetsOnce(s.clients, s.leaving, s.heap, 0, i);
      InFlightAppend(s.dispatches, x, i);
    }
    forall d, j | 0 <= d < |s'.dispatches| && 0 <= j < |s'.dispatches[d]| ensures InPlace(s', s'.dispatches[d][j]) {
      if d < |s.dispatches| { assert InPlace(s, s.dispatches[d][j]); }
    }
  }

  /** Before a target is finished its slot's count is positive, so the guarded decrement is exact. */
  lemma FinishCounts(s: Sys, d: nat)
    requires Inv(s) && Enabled(s, Finished(d))
    ensures var t := s.dispatches[d][0]; InPlace(s, t) && s.refcnt[t.idx] > 0
    ensures var s', t := Finish(s, d).0, s.dispatches[d][0];
            s'.refcnt == s.refcnt[t.idx := s.refcnt[t.idx] - 1]
                && s'.dispatches == s.dispatches[d := s.dispatches[d][1..]] && CountInv(s')
  {
    var t := s.dispatches[d][0];
    assert InPlace(s, t);
    InFlightPositive(s.dispatches, t.idx);
    assert s.dispatches[d][0].idx == t.idx;
    var s' := Finish(s, d).0;
    forall i | 0 <= i < |s.clients| ensures s'.refcnt[i] == InFlight(s'.dispatches, i) {
      InFlightUpdate(s.dispatches, d, s.dispatches[d][1..], i);
    }
  }

  lemma FinishKeeps(s: Sys, d: nat)
    requires Inv(s) && Enabled(s, Finished(d))
    ensures Inv(Finish(s, d).0)
  {
    FinishCounts(s, d);
    var t := s.dispatches[d][0];
    var (s', freed) := Finish(s, d);
    if freed { Emptied(s, s', t.idx, t.client); InFlightPositive(s'.dispatches, t.idx); }
    forall e, j | 0 <= e < |s'.dispatches| && 0 <= j < |s'.dispatches[e]| ensures InPlace(s', s'.dispatches[e][j]) {
      var x := s'.dispatches[e][j];
      assert x == if e == d then s.dispatches[d][j + 1] else s.dispatches[e][j];
      assert InPlace(s, x);
      if freed { assert x.idx != t.idx; }
    }
  }

  lemma StepKeeps(s: Sys, e: Event)
    requires Inv(s) && Enabled(s, e)
    ensures Inv(Step(s, e))
  {
    hide TableInv, TargetsInv, CountInv;
    assert Shaped(s) by { InvShape(s); }
    match e
    case Added(c) => AddKeeps(s, c);
    case Removed(c) => RemoveKeeps(s, c);
    case Freed(c) => FreedKeeps(s, c);
    case Collected => CollectKeeps(s);
    case Finished(d) => FinishKeeps(s, d);
  }

  lemma InvShape(s: Sys)
    requires Inv(s)
    ensures Shaped(s)
  {
  }

  // ---- Runs -------------------------------------------------------------------------------------------------

  ghost predicate Schedule(s: Sys, es: seq<Event>)
    decreases |es|
  {
    es != [] ==> Shaped(s) && Enabled(s, es[0]) && Schedule(Step(s, es[0]), es[1..])
  }

  ghost function After(s: Sys, es: seq<Event>): Sys
    requires Schedule(s, es)
    decreases |es|
  {
    if es == [] then s else After(Step(s, es[0]), es[1..])
  }

  lemma {:induction false} RunKeeps(s: Sys, es: seq<Event>)
    requires Inv(s) && Schedule(s, es)
    ensures Inv(After(s, es))
    decreases |es|
  {
    if es != [] {
      StepKeeps(s, es[0]);
      RunKeeps(Step(s, es[0]), es[1..]);
    }
  }

  /** In every reachable state the count of each slot is its in-flight targets, and each in-flight target's client is
      still allocated, in the same slot, and not in the hands of a thread that is about to free it. */
  lemma NoUseAfterFree(n: nat, es: seq<Event>, d: nat, k: nat)
    requires Schedule(Start(n), es)
    ensures var s := After(Start(n), es);
            && CountsExact(s)
            && (d < |s.dispatches| && k < |s.dispatches[d]| ==>
                  var t := s.dispatches[d][k]; InPlace(s, t) && t.client in s.heap && t.client !in s.doomed)
  {
    StartInv(n);
    RunKeeps(Start(n), es);
    var s := After(Start(n), es);
    if d < |s.dispatches| && k < |s.dispatches[d]| { assert InPlace(s, s.dispatches[d][k]); }
  }

  ghost predicate CountsExact(s: Sys) { Shaped(s) && CountInv(s) }

  /** A client is added whenever a slot is empty, and only then; it takes one empty slot with a count of zero and nobody
      else is touched. */
  lemma AddAccepts(s: Sys, c: nat)
    requires Shaped(s)
    ensures var (s', ok) := Add(s, c);
            && (ok <==> exists i :: 0 <= i < |s.clients| && s.clients[i] == Null) && (!ok ==> s' == s)
            && (ok ==> Shaped(s') && c in s'.heap && exists k :: TakesSlot(s, s', c, k))
  {
    var k := FreeSlot(s.clients, 0);
    if k < |s.clients| { assert TakesSlot(s, Add(s, c).0, c, k); }
  }

  ghost predicate TakesSlot(s: Sys, s': Sys, c: nat, k: nat)
    requires Shaped(s) && Shaped(s')
  {
    && k < |s.clients| && s.clients[k] == Null && s'.clients == s.clients[k := Of(c)]
    && s'.refcnt[k] == 0 && !s'.leaving[k]
    && forall i :: 0 <= i < |s.clients| && i != k ==> s'.refcnt[i] == s.refcnt[i] && s'.leaving[i] == s.leaving[i]
  }

  /** No slot holds c other than to let its last users finish. */
  ghost predicate Parting(s: Sys, c: nat)
    requires Shaped(s)
  {
    forall i :: 0 <= i < |s.clients| && s.clients[i] == Of(c) ==> s.leaving[i]
  }

  lemma RemovedParts(s: Sys, c: nat)
    requires Inv(s)
    ensures Shaped(Remove(s, c).0) && Parting(Remove(s, c).0, c) && Remove(s, c).0.dispatches == s.dispatches
    ensures forall i :: 0 <= i < |s.clients| && s.clients[i] != Of(c) ==>
              Remove(s, c).0.clients[i] == s.clients[i] && Remove(s, c).0.leaving[i] == s.leaving[i]
  {
  }

  lemma PartingKept(s: Sys, e: Event, c: nat)
    requires Inv(s) && Enabled(s, e) && e != Added(c) && Parting(s, c)
    ensures Inv(Step(s, e)) && Parting(Step(s, e), c)
    ensures |s.dispatches| <= |Step(s, e).dispatches| && Spared(Step(s, e).dispatches, |s.dispatches|, c)
  {
    hide TableInv, TargetsInv, CountInv;
    InvShape(s);
    StepKeeps(s, e);
    if e.Collected? { TargetsServe(s.clients, s.leaving, s.heap, 0); }
  }

  lemma {:induction false} TargetsServe(clients: seq<Ref>, leaving: seq<bool>, heap: set<nat>, n: nat)
    requires |leaving| == |clients| && n <= |clients|
    ensures forall k :: 0 <= k < |Targets(clients, leaving, heap, n)| ==>
              var t := Targets(clients, leaving, heap, n)[k];
              n <= t.idx < |clients| && clients[t.idx] == Of(t.client) && !leaving[t.idx]
    decreases |clients| - n
  {
    if n < |clients| { TargetsServe(clients, leaving, heap, n + 1); }
  }

  /** No target of dispatch d, from its k-th on, is c. */
  ghost predicate Spared(ds: seq<seq<Target>>, from: nat, c: nat) {
    forall d, k :: from <= d < |ds| && 0 <= k < |ds[d]| ==> ds[d][k].client != c
  }

  lemma SparedKept(s: Sys, e: Event, from: nat, c: nat)
    requires Inv(s) && Enabled(s, e) && e != Added(c) && Parting(s, c) && Spared(s.dispatches, from, c)
    requires from <= |s.dispatches|
    ensures Spared(Step(s, e).dispatches, from, c) && from <= |Step(s, e).dispatches|
  {
    PartingKept(s, e, c);
    var s' := Step(s, e);
    forall d, k | from <= d < |s'.dispatches| && 0 <= k < |s'.dispatches[d]| ensures s'.dispatches[d][k].client != c {
      if d < |s.dispatches| && e.Finished? && e.d == d { assert s'.dispatches[d][k] == s.dispatches[d][k + 1]; }
    }
  }

  lemma {:induction false} StaysSpared(s: Sys, es: seq<Event>, from: nat, c: nat)
    requires Inv(s) && Schedule(s, es) && Added(c) !in es && Parting(s, c) && Spared(s.dispatches, from, c)
    requires from <= |s.dispatches|
    ensures Spared(After(s, es).dispatches, from, c)
    decreases |es|
  {
    hide Inv, Step, Spared;
    if es != [] {
      assert es[0] in es;
      PartingKept(s, es[0], c);
      SparedKept(s, es[0], from, c);
      StaysSpared(Step(s, es[0]), es[1..], from, c);
    }
  }

  /** Once somebody has asked for its removal, no dispatch that starts afterwards serves the client, along every run
      that does not add it again. */
  lemma NotServedAgain(s: Sys, c: nat, es: seq<Event>)
    requires Inv(s) && Schedule(Remove(s, c).0, es) && Added(c) !in es
    ensures var t := After(Remove(s, c).0, es);
            forall d, k ::
              |s.dispatches| <= d < |t.dispatches| && 0 <= k < |t.dispatches[d]| ==> t.dispatches[d][k].client != c
  {
    hide TableInv, TargetsInv, CountInv, Step;
    InvShape(s);
    RemoveKeeps(s, c);
    RemovedParts(s, c);
    StaysSpared(Remove(s, c).0, es, |s.dispatches|, c);
  }

  /** A dispatch serves every client of the table that nobody has asked to remove, each exactly once, and no other. */
  lemma ServesEach(s: Sys, i: nat)
    requires Inv(s) && i < |s.clients|
    ensures var s' := Collect(s);
            |s'.dispatches| == |s.dispatches| + 1 &&
            Hits(s'.dispatches[|s.dispatches|], i) == if s.clients[i].Of? && !s.leaving[i] then 1 else 0
    ensures forall k :: 0 <= k < |Collect(s).dispatches[|s.dispatches|]| ==>
              var t := Collect(s).dispatches[|s.dispatches|][k];
              t.idx < |s.clients| && s.clients[t.idx] == Of(t.client)
  {
    TargetsOnce(s.clients, s.leaving, s.heap, 0, i);
    TargetsInPlace(s.clients, s.leaving, s.heap, 0);
  }

  /** A client leaves the table, and so comes to be freed, only when nothing in flight refers to it; every allocated
      client is in the table or in the hands of exactly one thread that frees it. */
  lemma FreedOnceAtZero(s: Sys, e: Event, c: nat)
    requires Inv(s) && Enabled(s, e) && c in Step(s, e).doomed && c !in s.doomed
    ensures Of(c) in s.clients && Of(c) !in Step(s, e).clients && c in Step(s, e).heap
    ensures forall d, k :: 0 <= d < |Step(s, e).dispatches| && 0 <= k < |Step(s, e).dispatches[d]| ==>
            Step(s, e).dispatches[d][k].client != c
    ensures e == Removed(c) || (e.Finished? && s.dispatches[e.d][0].client == c && s.leaving[s.dispatches[e.d][0].idx])
  {
    StepKeeps(s, e);
    var s' := Step(s, e);
    assert forall i :: 0 <= i < |s'.clients| ==> s'.clients[i] != Of(c);
    forall d, k | 0 <= d < |s'.dispatches| && 0 <= k < |s'.dispatches[d]| ensures s'.dispatches[d][k].client != c {
      assert InPlace(s', s'.dispatches[d][k]);
    }
    if e.Finished? {
      FinishCounts(s, e.d);
      assert s.clients[s.dispatches[e.d][0].idx] == Of(c);
    } else if e.Removed? {
      assert s.clients[SlotOf(s.clients, e.c, 0)] == Of(c);
    }
  }

  /** Nothing is forgotten: once all dispatches have finished, no removal is pending, so every client that was asked to
      leave has left the table. */
  lemma NothingLeftBehind(s: Sys, c: nat)
    requires Inv(s) && forall d :: 0 <= d < |s.dispatches| ==> s.dispatches[d] == []
    ensures forall i :: 0 <= i < |s.clients| ==> s.refcnt[i] == 0 && !s.leaving[i]
    ensures Of(c) !in Remove(s, c).0.clients
    ensures Of(c) in s.clients <==> Remove(s, c).1
  {
    forall i | 0 <= i < |s.clients| ensures s.refcnt[i] == 0 && !s.leaving[i] { InFlightPositive(s.dispatches, i); }
    var k := SlotOf(s.clients, c, 0);
    if k < |s.clients| { assert s.clients[k] == Of(c); }
  }

  /** A slot's count is at most the number of dispatches, so the source's 16-bit count is exact below 65536 of them. */
  lemma CountBounded(n: nat, es: seq<Event>, i: nat)
    requires Schedule(Start(n), es) && i < n
    ensures var s := After(Start(n), es); i < |s.refcnt| && s.refcnt[i] <= |s.dispatches|
  {
    StartInv(n);
    StartOnce(n);
    OnceEach(Start(n), es);
    RunKeeps(Start(n), es);
    var s := After(Start(n), es);
    SumBound(s.dispatches, i);
  }

  lemma StartOnce(n: nat)
    ensures Once(Start(n)) && |Start(n).clients| == n
  {
  }

  ghost predicate Once(s: Sys) { forall d, i :: 0 <= d < |s.dispatches| ==> Hits(s.dispatches[d], i) <= 1 }

  lemma {:induction false} OnceEach(s: Sys, es: seq<Event>)
    requires Inv(s) && Schedule(s, es) && Once(s)
    ensures Once(After(s, es)) && |After(s, es).clients| == |s.clients|
    decreases |es|
  {
    if es != [] {
      StepKeeps(s, es[0]);
      OnceStep(s, es[0]);
      OnceEach(Step(s, es[0]), es[1..]);
    }
  }

  lemma OnceStep(s: Sys, e: Event)
    requires Inv(s) && Enabled(s, e) && Once(s)
    ensures Once(Step(s, e)) && |Step(s, e).clients| == |s.clients|
  {
    var s' := Step(s, e);
    forall d, i | 0 <= d < |s'.dispatches| ensures Hits(s'.dispatches[d], i) <= 1 {
      if e.Collected? && d == |s.dispatches| { TargetsOnce(s.clients, s.leaving, s.heap, 0, i); }
      else { assert Hits(s.dispatches[d], i) <= 1; }
    }
  }

  lemma {:induction false} SumBound(ds: seq<seq<Target>>, i: nat)
    requires forall d :: 0 <= d < |ds| ==> Hits(ds[d], i) <= 1
    ensures InFlight(ds, i) <= |ds|
  {
    if ds != [] { SumBound(ds[..|ds| - 1], i); }
  }
}

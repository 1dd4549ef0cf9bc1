/** What every interleaving of the dispatcher's steps keeps: its counters are the live items, no freed connection is
    read, a teardown is always woken, and each accepted action is called once, in order, or withdrawn. */
module DispatcherProofs {
  import opened Ax25Types
  import opened DispatcherSpec

  // ---- The invariant ----------------------------------------------------------------------------

  /** The item the worker has taken off the queue. */
  predicate Holds(w: Worker, i: nat) { w == Got(i) || (w.Invoking? && w.at == i) }

  ghost predicate IndexInv(s: Sys) {
    && (forall k :: 0 <= k < |s.queue| ==> s.queue[k] < |s.pool| && !Holds(s.worker, s.queue[k]))
    && (forall j, k :: 0 <= j < k < |s.queue| ==> s.queue[j] != s.queue[k])
    && (s.worker.Got? ==> s.worker.index < |s.pool|)
    && (s.worker.Invoking? ==> s.worker.at < |s.pool|)
    && (forall i :: 0 <= i < |s.pool| ==> (s.pool[i].inUse <==> i in s.queue || Holds(s.worker, i)))
  }

  ghost predicate ItemInv(s: Sys) {
    && (forall i :: 0 <= i < |s.pool| ==> (s.pool[i].executing <==> s.worker.Invoking? && s.worker.at == i))
    && (forall i :: 0 <= i < |s.pool| && !s.pool[i].inUse ==> !s.pool[i].cancelled && s.pool[i].ctx == Null)
    && (forall i :: 0 <= i < |s.pool| && s.pool[i].executing ==>
       !s.pool[i].cancelled
       && s.pool[i].ctx == To(s.worker.ctx))
    && (forall i :: 0 <= i < |s.pool| && s.pool[i].inUse && !s.pool[i].cancelled ==>
          s.pool[i].ctx.To? && s.pool[i].ctx.id in s.ctxs
          && (!s.pool[i].executing ==>
             !s.ctxs[s.pool[i].ctx.id].shutdown
             && s.pool[i].generation == s.ctxs[s.pool[i].ctx.id].generation))
  }

  /** The counters of a connection are its live items, and its teardown has either been signalled or waits for
      the callback that the worker is in. */
  ghost predicate CtxInv(s: Sys, c: nat)
    requires c in s.ctxs
  {
    var x := s.ctxs[c];
    && x.pending == Count(s.pool, c)
    && x.executing == (if s.worker.Invoking? && s.worker.ctx == c then 1 else 0)
    && x.waiting == x.shutdown
    && (x.waiting ==> x.pending == 0)
    && (x.sem <==> x.waiting && x.executing == 0)
  }

  /** The tickets on their way to being called, oldest first. */
  function OnTheWay(s: Sys): seq<nat> {
    (if s.worker.Got? then [s.worker.index] else []) + s.queue
  }

  ghost predicate TicketInv(s: Sys) {
    && (forall i :: 0 <= i < |s.pool| && s.pool[i].inUse ==> s.pool[i].ticket < |s.accepted|)
    && (forall i :: 0 <= i < |s.pool| && s.pool[i].inUse && !s.pool[i].cancelled ==>
       s.pool[i].ctx == To(s.accepted[s.pool[i].ticket]))
    && (forall t :: t in s.invoked ==> t < |s.accepted|)
    && (forall t :: t in s.withdrawn ==> t < |s.accepted|)
  }

  ghost predicate OrderInv(s: Sys) {
    var w := OnTheWay(s);
    && (forall k :: 0 <= k < |w| ==> w[k] < |s.pool|)
    && (forall j, k :: 0 <= j < k < |w| ==> s.pool[w[j]].ticket < s.pool[w[k]].ticket)
    && (forall j, k :: 0 <= j < k < |s.invoked| ==> s.invoked[j] < s.invoked[k])
    && (forall j, k :: 0 <= j < |s.invoked| && 0 <= k < |w| ==> s.invoked[j] < s.pool[w[k]].ticket)
    && (forall k :: 0 <= k < |w| ==> (s.pool[w[k]].ticket in s.withdrawn <==> s.pool[w[k]].cancelled))
  }

  /** An accepted action has been called, has been withdrawn, or is still on its way: exactly one of the three. */
  ghost predicate Accounted(s: Sys) {
    && (forall t :: 0 <= t < |s.accepted| ==>
          t in s.invoked || t in s.withdrawn || exists i :: 0 <= i < |s.pool| && Waits(s.pool[i], t))
    && (forall t :: t in s.invoked ==> t !in s.withdrawn)
  }

  predicate Waits(it: Item, t: nat) { it.inUse && !it.cancelled && !it.executing && it.ticket == t }

  ghost predicate Inv(s: Sys) {
    IndexInv(s) && ItemInv(s) && (forall c :: c in s.ctxs ==> CtxInv(s, c)) && TicketInv(s) && OrderInv(s)
        && Accounted(s)
  }

  lemma StartInv(depth: nat)
    ensures Inv(Start(depth))
  {
  }

  // ---- Counting ---------------------------------------------------------------------------------

  lemma {:induction false} CountUpdate(pool: seq<Item>, i: nat, it: Item, c: nat)
    requires i < |pool|
    ensures Count(pool[i := it], c) == Count(pool, c) - (if Live(pool[i], c) then 1 else 0) +
            (if Live(it, c) then 1 else 0)
  {
    var n := |pool| - 1;
    if i == n {
      assert pool[i := it][..n] == pool[..n];
    } else {
      assert pool[i := it][..n] == pool[..n][i := it];
      CountUpdate(pool[..n], i, it, c);
    }
  }

  lemma {:induction false} CountZero(pool: seq<Item>, c: nat)
    requires forall i :: 0 <= i < |pool| ==> !Live(pool[i], c)
    ensures Count(pool, c) == 0
  {
    if pool != [] { CountZero(pool[..|pool| - 1], c); }
  }

  lemma {:induction false} CountSame(a: seq<Item>, b: seq<Item>, c: nat)
    requires |a| == |b| && forall i :: 0 <= i < |a| ==> (Live(a[i], c) <==> Live(b[i], c))
    ensures Count(a, c) == Count(b, c)
  {
    if a != [] { CountSame(a[..|a| - 1], b[..|b| - 1], c); }
  }

  lemma {:induction false} CountBound(pool: seq<Item>, c: nat)
    ensures Count(pool, c) <= |pool|
  {
    if pool != [] { CountBound(pool[..|pool| - 1], c); }
  }

  lemma CountPositive(pool: seq<Item>, i: nat, c: nat)
    requires i < |pool| && Live(pool[i], c)
    ensures Count(pool, c) > 0
  {
    CountUpdate(pool, i, pool[i].(cancelled := true), c);
  }

  // ---- The queue never fills --------------------------------------------------------------------

  lemma {:induction false} Pigeonhole(q: seq<nat>, n: nat, free: nat)
    requires free < n
    requires forall k :: 0 <= k < |q| ==> q[k] < n && q[k] != free
    requires forall j, k :: 0 <= j < k < |q| ==> q[j] != q[k]
    ensures |q| < n
  {
    SubsetSize(Elements(q), Below(n) - {free});
  }

  ghost function Elements(q: seq<nat>): (r: set<nat>)
    ensures forall x: nat :: x in r <==> x in q
    ensures (forall j, k :: 0 <= j < k < |q| ==> q[j] != q[k]) ==> |r| == |q|
  {
    if q == [] then {}
    else
      assert q == q[..|q| - 1] + [q[|q| - 1]];
      Elements(q[..|q| - 1]) + {q[|q| - 1]}
  }

  ghost function Below(n: nat): (r: set<nat>)
    ensures |r| == n && forall x: nat :: x in r <==> x < n
  {
    if n == 0 then {} else Below(n - 1) + {n - 1}
  }

  lemma {:induction false} SubsetSize(a: set<nat>, b: set<nat>)
    requires a <= b
    ensures |a| <= |b|
  {
    if a != {} {
      var x :| x in a;
      SubsetSize(a - {x}, b - {x});
    }
  }

  /** The queue-full branch of `enqueue` cannot be taken: whenever a pool slot is free, so is a queue place. */
  lemma QueueHasRoom(s: Sys)
    requires IndexInv(s) && FirstFree(s.pool, 0) < |s.pool|
    ensures |s.queue| < |s.pool|
  {
    var slot := FirstFree(s.pool, 0);
    assert forall k :: 0 <= k < |s.queue| ==> s.queue[k] in s.queue;
    Pigeonhole(s.queue, |s.pool|, slot);
  }

  /** A post to a connection whose `quiesce` has returned. */
  predicate LatePost(s: Sys, e: Event) { e.Posted? && e.c !in s.ctxs }

  // ---- Lifetime safety --------------------------------------------------------------------------

  /** The worker only reads connections that have not been freed. */
  lemma ReadsOnlyLive(s: Sys, e: Event)
    requires Inv(s) && Enabled(s, e)
    ensures Safe(s, e) <==> !LatePost(s, e)
    ensures s.worker.Invoking? ==> s.worker.ctx in s.ctxs
  {
    if s.worker.Invoking? { assert s.pool[s.worker.at].executing; }
  }

  // ---- Every step keeps the invariant -----------------------------------------------------------

  lemma OpenKeeps(s: Sys, c: nat)
    requires Inv(s) && c !in s.ctxs
    ensures Inv(Step(s, Opened(c)))
  {
    var s' := Step(s, Opened(c));
    forall i | 0 <= i < |s.pool| ensures !Live(s.pool[i], c) {}
    CountZero(s.pool, c);
    if s.worker.Invoking? { ReadsOnlyLive(s, Ended); }
    forall d | d in s'.ctxs ensures CtxInv(s', d) { if d != c { assert CtxInv(s, d); } }
  }

  lemma PostKeeps(s: Sys, c: nat)
    requires Inv(s) && c in s.ctxs
    ensures Inv(Step(s, Posted(c)))
  {
    var s' := Step(s, Posted(c));
    var slot := FirstFree(s.pool, 0);
    assert CtxInv(s, c);
    if !s.ctxs[c].shutdown && slot < |s.pool| {
      QueueHasRoom(s);
      PostIndices(s, c, slot);
      PostItems(s, c, slot);
      PostOrders(s, c, slot);
      PostAccounts(s, c, slot);
      forall d | d in s'.ctxs ensures CtxInv(s', d) {
        assert CtxInv(s, d);
        CountUpdate(s.pool, slot, s'.pool[slot], d);
      }
    }
  }

  lemma PostIndices(s: Sys, c: nat, slot: nat)
    requires Inv(s) && c in s.ctxs && !s.ctxs[c].shutdown && slot == FirstFree(s.pool, 0) < |s.pool|
             && |s.queue| < |s.pool|
    ensures var s' := Step(s, Posted(c)); IndexInv(s')
  {
    hide ItemInv, TicketInv, OrderInv, Accounted, CtxInv;
    var s' := Step(s, Posted(c));
    assert forall k :: 0 <= k < |s.queue| ==> s.queue[k] in s.queue;
    forall i | 0 <= i < |s.pool| ensures s'.pool[i].inUse <==> i in s'.queue || Holds(s'.worker, i) {
      assert i in s'.queue <==> i in s.queue || i == slot;
    }
  }

  lemma PostItems(s: Sys, c: nat, slot: nat)
    requires Inv(s) && c in s.ctxs && !s.ctxs[c].shutdown && slot == FirstFree(s.pool, 0) < |s.pool|
             && |s.queue| < |s.pool|
    ensures var s' := Step(s, Posted(c)); ItemInv(s') && TicketInv(s')
  {
    hide OrderInv, Accounted, CtxInv;
  }

  lemma PostOrders(s: Sys, c: nat, slot: nat)
    requires Inv(s) && c in s.ctxs && !s.ctxs[c].shutdown && slot == FirstFree(s.pool, 0) < |s.pool|
             && |s.queue| < |s.pool|
    ensures var s' := Step(s, Posted(c)); OrderInv(s')
  {
    var s' := Step(s, Posted(c));
    hide ItemInv, Accounted, CtxInv;
    var w, w' := OnTheWay(s), OnTheWay(s');
    assert w' == w + [slot];
    forall k | 0 <= k < |w|
      ensures w[k] != slot && s'.pool[w[k]] == s.pool[w[k]] && s.pool[w[k]].inUse
    {
      OnTheWayInUse(s, k);
    }
    OrderGrows(s, s', slot);
  }

  lemma OrderGrows(s: Sys, s': Sys, slot: nat)
    requires OrderInv(s) && TicketInv(s) && slot < |s.pool| == |s'.pool| && OnTheWay(s') == OnTheWay(s) + [slot]
    requires forall k :: 0 <= k < |OnTheWay(s)| ==>
               var i := OnTheWay(s)[k]; i < |s.pool| && s'.pool[i] == s.pool[i] && s.pool[i].inUse
    requires s'.invoked == s.invoked && s'.withdrawn == s.withdrawn
    requires s'.pool[slot].ticket == |s.accepted| && !s'.pool[slot].cancelled
    ensures OrderInv(s')
  {
    hide OnTheWay;
    var w, w' := OnTheWay(s), OnTheWay(s');
    forall k | 0 <= k < |w| ensures w'[k] == w[k] && s.pool[w[k]].ticket < |s.accepted| {}
    forall j | 0 <= j < |s.invoked| ensures s.invoked[j] < |s.accepted| { assert s.invoked[j] in s.invoked; }
  }

  lemma PostAccounts(s: Sys, c: nat, slot: nat)
    requires Inv(s) && c in s.ctxs && !s.ctxs[c].shutdown && slot == FirstFree(s.pool, 0) < |s.pool|
             && |s.queue| < |s.pool|
    ensures var s' := Step(s, Posted(c)); Accounted(s')
  {
    var s' := Step(s, Posted(c));
    forall t | 0 <= t < |s'.accepted|
      ensures t in s'.invoked || t in s'.withdrawn || exists i :: 0 <= i < |s'.pool| && Waits(s'.pool[i], t)
    {
      if t == |s.accepted| {
        assert Waits(s'.pool[slot], t);
      } else if t !in s.invoked && t !in s.withdrawn {
        var i :| 0 <= i < |s.pool| && Waits(s.pool[i], t);
        assert Waits(s'.pool[i], t);
      }
    }
  }

  lemma OnTheWayInUse(s: Sys, k: nat)
    requires IndexInv(s) && k < |OnTheWay(s)|
    ensures var i := OnTheWay(s)[k]; i < |s.pool| && s.pool[i].inUse
  {
    if !(s.worker.Got? && k == 0) { assert OnTheWay(s)[k] in s.queue; }
  }

  lemma ReceiveKeeps(s: Sys)
    requires Inv(s) && Enabled(s, Received)
    ensures Inv(Step(s, Received))
  {
    hide OrderInv, Accounted;
    var s' := Step(s, Received);
    ReceiveOrders(s);
    assert s.queue[0] in s.queue;
    forall i | 0 <= i < |s.pool| ensures s'.pool[i].inUse <==> i in s'.queue || Holds(s'.worker, i) {
      assert i in s.queue <==> i == s.queue[0] || i in s.queue[1..];
    }
    forall c | c in s'.ctxs ensures CtxInv(s', c) { assert CtxInv(s, c); }
  }

  lemma ReceiveOrders(s: Sys)
    requires Inv(s) && Enabled(s, Received)
    ensures OrderInv(Step(s, Received)) && Accounted(Step(s, Received))
  {
    hide ItemInv, TicketInv, CtxInv;
    assert s.queue[0] in s.queue;
    assert OnTheWay(Step(s, Received)) == OnTheWay(s);
  }

  /** The item taken by the worker, once cancelled, is only recycled. */
  lemma DropKeeps(s: Sys)
    requires Inv(s) && s.worker.Got? && s.pool[s.worker.index].cancelled
    ensures Inv(Step(s, Began)) && Step(s, Began).ctxs == s.ctxs
  {
    var s' := Step(s, Began);
    var i := s.worker.index;
    Released(s, s', i);
    forall c | c in s'.ctxs ensures CtxInv(s', c) {
      assert CtxInv(s, c);
      CountUpdate(s.pool, i, s'.pool[i], c);
    }
  }

  /** Recycling the item the worker holds keeps the indices and the order. */
  lemma Released(s: Sys, s': Sys, i: nat)
    requires Inv(s) && Holds(s.worker, i) && i < |s.pool|
    requires s.worker.Got? ==> s.pool[i].cancelled
    requires s' == s.(pool := s'.pool, worker := Idle, ctxs := s'.ctxs) && s'.ctxs.Keys == s.ctxs.Keys
    requires s'.pool == s.pool[i := s.pool[i].(inUse := false, executing := false, cancelled := false, ctx := Null)]
    requires forall c :: c in s.ctxs ==>
             s'.ctxs[c].shutdown == s.ctxs[c].shutdown
             && s'.ctxs[c].generation == s.ctxs[c].generation
    ensures IndexInv(s') && ItemInv(s') && TicketInv(s') && OrderInv(s') && Accounted(s')
  {
    forall j | 0 <= j < |s.pool| ensures s'.pool[j].inUse <==> j in s'.queue || Holds(s'.worker, j) {
    }
    forall k | 0 <= k < |s.queue| ensures s'.pool[s.queue[k]] == s.pool[s.queue[k]] {}
    ReleasedOrders(s, s', i);
    ReleasedAccounts(s, s', i);
  }

  lemma ReleasedOrders(s: Sys, s': Sys, i: nat)
    requires Inv(s) && Holds(s.worker, i) && i < |s.pool|
    requires s.worker.Got? ==> s.pool[i].cancelled
    requires s' == s.(pool := s'.pool, worker := Idle, ctxs := s'.ctxs)
    requires s'.pool == s.pool[i := s.pool[i].(inUse := false, executing := false, cancelled := false, ctx := Null)]
    ensures OrderInv(s')
  {
    hide OrderInv, ItemInv, TicketInv, Accounted, CtxInv;
    var d := if s.worker.Got? then 1 else 0;
    assert OnTheWay(s)[d..] == s.queue == OnTheWay(s');
    forall k | 0 <= k < |s.queue| ensures s'.pool[s.queue[k]] == s.pool[s.queue[k]] { assert s.queue[k] != i; }
    OrderShift(s, s', d);
  }

  /** The order of what is on the way survives when the first d of it leave. */
  lemma OrderShift(s: Sys, s': Sys, d: nat)
    requires OrderInv(s) && |OnTheWay(s')| + d == |OnTheWay(s)| && s'.invoked == s.invoked
             && s'.withdrawn == s.withdrawn
    requires |s'.pool| == |s.pool|
    requires OnTheWay(s') == OnTheWay(s)[d..]
    requires forall k :: 0 <= k < |OnTheWay(s')| ==>
               OnTheWay(s')[k] < |s.pool| && s'.pool[OnTheWay(s')[k]] == s.pool[OnTheWay(s')[k]]
    ensures OrderInv(s')
  {
    hide OnTheWay;
    var w, w' := OnTheWay(s), OnTheWay(s');
    forall j, k | 0 <= j < k < |w'| ensures s'.pool[w'[j]].ticket < s'.pool[w'[k]].ticket {
      assert s.pool[w[j + d]].ticket < s.pool[w[k + d]].ticket;
    }
  }

  lemma ReleasedAccounts(s: Sys, s': Sys, i: nat)
    requires Inv(s) && Holds(s.worker, i) && i < |s.pool|
    requires s.worker.Got? ==> s.pool[i].cancelled
    requires s' == s.(pool := s'.pool, worker := Idle, ctxs := s'.ctxs)
    requires s'.pool == s.pool[i := s.pool[i].(inUse := false, executing := false, cancelled := false, ctx := Null)]
    ensures Accounted(s')
  {
    forall t | 0 <= t < |s'.accepted| && t !in s'.invoked && t !in s'.withdrawn
      ensures exists j :: 0 <= j < |s'.pool| && Waits(s'.pool[j], t)
    {
      var j :| 0 <= j < |s.pool| && Waits(s.pool[j], t);
      assert j != i;
      assert Waits(s'.pool[j], t);
    }
  }

  lemma ClaimKeeps(s: Sys)
    requires Inv(s) && s.worker.Got? && !s.pool[s.worker.index].cancelled
    ensures Inv(Step(s, Began)) && Step(s, Began).worker.Invoking?
  {
    hide OrderInv, Accounted, CtxInv;
    var s' := Step(s, Began);
    var i := s.worker.index;
    var c := s.pool[i].ctx.id;
    ClaimCounts(s);
    ClaimOrders(s, s');
    ClaimAccounts(s);
  }

  lemma ClaimCounts(s: Sys)
    requires Inv(s) && s.worker.Got? && !s.pool[s.worker.index].cancelled
    ensures BeginSafe(s) && forall d :: d in Step(s, Began).ctxs ==> CtxInv(Step(s, Began), d)
  {
    hide OrderInv, Accounted, TicketInv;
    var s' := Step(s, Began);
    var i := s.worker.index;
    var c := s.pool[i].ctx.id;
    assert CtxInv(s, c);
    assert Live(s.pool[i], c);
    CountPositive(s.pool, i, c);
    forall d | d in s'.ctxs ensures CtxInv(s', d) {
      assert CtxInv(s, d);
      CountUpdate(s.pool, i, s'.pool[i], d);
    }
  }

  lemma ClaimOrders(s: Sys, s': Sys)
    requires IndexInv(s) && OrderInv(s) && s.worker.Got? && s'.worker.Invoking?
    requires var i := s.worker.index;
             s' == s.(pool := s.pool[i := s.pool[i].(executing := true)], ctxs := s'.ctxs, worker := s'.worker,
                      invoked := s.invoked + [s.pool[i].ticket])
    ensures OrderInv(s')
  {
    var i := s.worker.index;
    hide OrderInv;
    assert OnTheWay(s)[1..] == s.queue == OnTheWay(s');
    forall k | 0 <= k < |s.queue| ensures s'.pool[s.queue[k]] == s.pool[s.queue[k]] { assert s.queue[k] != i; }
    OrderShift(s, s'.(invoked := s.invoked), 1);
    OrderInvoked(s, s'.(invoked := s.invoked), s');
  }

  /** Calling the oldest keeps the order. */
  lemma OrderInvoked(s: Sys, mid: Sys, s': Sys)
    requires OrderInv(s) && OrderInv(mid) && |OnTheWay(s)| > 0 && OnTheWay(mid) == OnTheWay(s)[1..]
    requires forall k :: 0 <= k < |OnTheWay(mid)| ==> mid.pool[OnTheWay(mid)[k]] == s.pool[OnTheWay(mid)[k]]
    requires s' == mid.(invoked := s.invoked + [s.pool[OnTheWay(s)[0]].ticket]) && mid.invoked == s.invoked
    ensures OrderInv(s')
  {
    var w := OnTheWay(s);
    assert OnTheWay(s') == OnTheWay(mid);
    hide OnTheWay;
    assert forall k :: 0 < k < |w| ==> s.pool[w[0]].ticket < s.pool[w[k]].ticket;
    assert forall j :: 0 <= j < |s.invoked| ==> s.invoked[j] < s.pool[w[0]].ticket;
    forall k | 0 <= k < |OnTheWay(s')| ensures OnTheWay(s')[k] == w[k + 1] {}
  }

  lemma ClaimAccounts(s: Sys)
    requires Inv(s) && s.worker.Got? && !s.pool[s.worker.index].cancelled
    requires var it := s.pool[s.worker.index]; it.inUse && it.ctx.To? && it.ctx.id in s.ctxs
    requires var it := s.pool[s.worker.index];
             !s.ctxs[it.ctx.id].shutdown
             && it.generation == s.ctxs[it.ctx.id].generation
    ensures Accounted(Step(s, Began))
  {
    var s' := Step(s, Began);
    var i := s.worker.index;
    assert OnTheWay(s)[0] == i;
    forall t | 0 <= t < |s'.accepted| && t !in s'.invoked && t !in s'.withdrawn
      ensures exists j :: 0 <= j < |s'.pool| && Waits(s'.pool[j], t)
    {
      assert t !in s.invoked;
      var j :| 0 <= j < |s.pool| && Waits(s.pool[j], t);
      assert j != i;
      assert Waits(s'.pool[j], t);
    }
  }

  lemma EndKeeps(s: Sys)
    requires Inv(s) && s.worker.Invoking?
    ensures EndSafe(s) && Inv(Step(s, Ended))
  {
    ReadsOnlyLive(s, Ended);
    var s' := Step(s, Ended);
    var i, c := s.worker.at, s.worker.ctx;
    assert CtxInv(s, c);
    Released(s, s', i);
    forall d | d in s'.ctxs ensures CtxInv(s', d) {
      assert CtxInv(s, d);
      CountUpdate(s.pool, i, s'.pool[i], d);
    }
  }

  lemma QuiesceKeeps(s: Sys, c: nat)
    requires Inv(s) && Enabled(s, Quiesced(c))
    ensures Inv(Step(s, Quiesced(c)))
  {
    hide OrderInv, Accounted, OnTheWay, IndexInv, ItemInv, TicketInv, Quiesce;
    var s' := Step(s, Quiesced(c));
    QuiesceCounts(s, c);
    QuiesceItems(s, c);
    QuiesceOrders(s, c);
    QuiesceAccounts(s, c);
  }

  lemma QuiesceItems(s: Sys, c: nat)
    requires Inv(s) && Enabled(s, Quiesced(c))
    ensures var s' := Step(s, Quiesced(c)); IndexInv(s') && ItemInv(s') && TicketInv(s')
  {
    hide OrderInv, Accounted, OnTheWay, CtxInv, IndexInv, TicketInv;
    QuiesceGone(s, c);
    QuiesceIndices(s, c);
    QuiesceTickets(s, c);
  }

  lemma QuiesceTickets(s: Sys, c: nat)
    requires Inv(s) && Enabled(s, Quiesced(c))
    ensures TicketInv(Step(s, Quiesced(c)))
  {
    hide OrderInv, Accounted, OnTheWay, CtxInv, IndexInv, ItemInv;
  }

  lemma QuiesceIndices(s: Sys, c: nat)
    requires Inv(s) && Enabled(s, Quiesced(c))
    ensures IndexInv(Step(s, Quiesced(c)))
  {
    hide OrderInv, Accounted, OnTheWay, CtxInv, ItemInv, TicketInv;
  }

  /** The connection is removed at once only if the worker is not in one of its callbacks. */
  lemma QuiesceGone(s: Sys, c: nat)
    requires Inv(s) && Enabled(s, Quiesced(c))
    ensures s.worker.Invoking? && s.worker.ctx == c ==> c in Step(s, Quiesced(c)).ctxs
  {
    hide OrderInv, Accounted, OnTheWay, IndexInv, ItemInv, TicketInv;
    QuiesceCounts(s, c);
  }

  lemma QuiesceCounts(s: Sys, c: nat)
    requires Inv(s) && Enabled(s, Quiesced(c))
    ensures var s' := Step(s, Quiesced(c)); forall d :: d in s'.ctxs ==> CtxInv(s', d)
    ensures c !in Step(s, Quiesced(c)).ctxs <==> !(s.worker.Invoking? && s.worker.ctx == c)
  {
    hide OrderInv, Accounted, OnTheWay, IndexInv, TicketInv;
    var s' := Step(s, Quiesced(c));
    assert CtxInv(s, c);
    forall i | 0 <= i < |s.pool| ensures !Live(s'.pool[i], c) {}
    CountZero(s'.pool, c);
    forall d | d in s'.ctxs ensures CtxInv(s', d) {
      assert CtxInv(s, d);
      if d != c { CountSame(s.pool, s'.pool, d); }
    }
  }

  lemma LiveOnTheWay(s: Sys, i: nat, c: nat) returns (k: nat)
    requires Inv(s) && i < |s.pool| && Live(s.pool[i], c)
    ensures k < |OnTheWay(s)| && OnTheWay(s)[k] == i
  {
    if i in s.queue {
      var q :| 0 <= q < |s.queue| && s.queue[q] == i;
      k := if s.worker.Got? then q + 1 else q;
    } else {
      assert Holds(s.worker, i);
      k := 0;
    }
  }

  lemma QuiesceOrders(s: Sys, c: nat)
    requires Inv(s) && Enabled(s, Quiesced(c))
    ensures OrderInv(Step(s, Quiesced(c)))
  {
    hide ItemInv, TicketInv, Accounted, CtxInv;
    var s' := Step(s, Quiesced(c));
    var w := OnTheWay(s);
    assert OnTheWay(s') == w;
    forall k | 0 <= k < |w| ensures s'.pool[w[k]].ticket in s'.withdrawn <==> s'.pool[w[k]].cancelled {
      var t := s.pool[w[k]].ticket;
      OnTheWayInUse(s, k);
      if t in s'.withdrawn && t !in s.withdrawn {
        var i :| 0 <= i < |s.pool| && Live(s.pool[i], c) && s.pool[i].ticket == t;
        var j := LiveOnTheWay(s, i, c);
        assert j == k;
      }
    }
  }

  lemma QuiesceAccounts(s: Sys, c: nat)
    requires Inv(s) && Enabled(s, Quiesced(c))
    ensures Accounted(Step(s, Quiesced(c)))
  {
    var s' := Step(s, Quiesced(c));
    forall t | 0 <= t < |s.accepted| && t !in s'.invoked && t !in s'.withdrawn
      ensures exists j :: 0 <= j < |s'.pool| && Waits(s'.pool[j], t)
    {
      var j :| 0 <= j < |s.pool| && Waits(s.pool[j], t);
      assert !Live(s.pool[j], c);
      assert Waits(s'.pool[j], t);
    }
    forall t | t in s'.invoked && t in s'.withdrawn ensures false {
      var i :| 0 <= i < |s.pool| && Live(s.pool[i], c) && s.pool[i].ticket == t;
      var j := LiveOnTheWay(s, i, c);
    }
  }

  lemma ReturnKeeps(s: Sys, c: nat)
    requires Inv(s) && Enabled(s, Returned(c))
    ensures Inv(Step(s, Returned(c)))
  {
    var s' := Step(s, Returned(c));
    assert CtxInv(s, c);
    assert OnTheWay(s') == OnTheWay(s);
    forall i | 0 <= i < |s.pool| ensures !Live(s.pool[i], c) {}
    forall d | d in s'.ctxs ensures CtxInv(s', d) { assert CtxInv(s, d); }
  }

  /** Every enabled step but a late post is safe and keeps the invariant. */
  lemma StepKeeps(s: Sys, e: Event)
    requires Inv(s) && Enabled(s, e) && !LatePost(s, e)
    ensures Safe(s, e) && Inv(Step(s, e))
  {
    hide Inv, Step;
    ReadsOnlyLive(s, e);
    match e
    case Opened(c) => OpenKeeps(s, c);
    case Posted(c) => PostKeeps(s, c);
    case Received => ReceiveKeeps(s);
    case Began => if s.pool[s.worker.index].cancelled { DropKeeps(s); } else { ClaimKeeps(s); }
    case Ended => EndKeeps(s);
    case Quiesced(c) => QuiesceKeeps(s, c);
    case Returned(c) => ReturnKeeps(s, c);
  }

  // ---- Runs -------------------------------------------------------------------------------------

  /** Each event can happen when its turn comes (for as long as nothing freed is read). */
  ghost predicate Schedule(s: Sys, es: seq<Event>)
    decreases |es|
  {
    es != [] ==> Enabled(s, es[0]) && (Safe(s, es[0]) ==> Schedule(Step(s, es[0]), es[1..]))
  }

  /** No step of the run reads a freed connection. */
  ghost predicate NeverFaults(s: Sys, es: seq<Event>)
    decreases |es|
  {
    es != [] ==> Enabled(s, es[0]) && Safe(s, es[0]) && NeverFaults(Step(s, es[0]), es[1..])
  }

  ghost function After(s: Sys, es: seq<Event>): Sys
    requires NeverFaults(s, es)
    decreases |es|
  {
    if es == [] then s else After(Step(s, es[0]), es[1..])
  }

  /** No post comes after the `quiesce` of its connection has returned. */
  ghost predicate NoLatePost(s: Sys, es: seq<Event>)
    decreases |es|
  {
    es != [] ==> !LatePost(s, es[0]) && (Enabled(s, es[0]) && Safe(s, es[0]) ==> NoLatePost(Step(s, es[0]), es[1..]))
  }

  lemma {:induction false} RunKeeps(s: Sys, es: seq<Event>)
    requires Inv(s) && NeverFaults(s, es)
    ensures Inv(After(s, es))
    decreases |es|
  {
    hide Inv;
    if es != [] {
      ReadsOnlyLive(s, es[0]);
      StepKeeps(s, es[0]);
      RunKeeps(Step(s, es[0]), es[1..]);
    }
  }

  /** An interleaving of the threads, of any length, reads only connections that are still there if and only if nobody
      posts to a connection after its `quiesce` has returned: the worker and the teardown themselves never fault. */
  lemma {:induction false} FaultFree(s: Sys, es: seq<Event>)
    requires Inv(s) && Schedule(s, es)
    ensures NeverFaults(s, es) <==> NoLatePost(s, es)
    decreases |es|
  {
    hide Inv;
    if es != [] {
      ReadsOnlyLive(s, es[0]);
      if !LatePost(s, es[0]) {
        StepKeeps(s, es[0]);
        FaultFree(Step(s, es[0]), es[1..]);
      }
    }
  }

  /** The counters in every reachable state, and that the source's 8- and 16-bit counters cannot wrap. */
  lemma CountersExact(depth: nat, es: seq<Event>, c: nat)
    requires NeverFaults(Start(depth), es)
    ensures var s := After(Start(depth), es);
            c in s.ctxs ==> s.ctxs[c].pending == Count(s.pool, c) <= depth && s.ctxs[c].executing <= 1
  {
    StartInv(depth);
    RunKeeps(Start(depth), es);
    var s := After(Start(depth), es);
    SameDepth(Start(depth), es);
    if c in s.ctxs {
      assert CtxInv(s, c);
      CountBound(s.pool, c);
    }
  }

  lemma {:induction false} SameDepth(s: Sys, es: seq<Event>)
    requires NeverFaults(s, es)
    ensures |After(s, es).pool| == |s.pool|
    decreases |es|
  {
    if es != [] { SameDepth(Step(s, es[0]), es[1..]); }
  }

  // ---- Teardown ---------------------------------------------------------------------------------

  /** The step reads connection c from the worker. */
  predicate WorkerReads(s: Sys, e: Event, c: nat) {
    || (e.Ended? && s.worker.Invoking? && s.worker.ctx == c)
    || (e.Began? && s.worker.Got? && s.worker.index < |s.pool| &&
        var it := s.pool[s.worker.index]; it.inUse && !it.cancelled && it.ctx == To(c))
  }

  ghost predicate LeavesAlone(s: Sys, es: seq<Event>, c: nat)
    requires NeverFaults(s, es)
    decreases |es|
  {
    && !(s.worker.Invoking? && s.worker.ctx == c)
    && (es != [] ==> !WorkerReads(s, es[0], c) && LeavesAlone(Step(s, es[0]), es[1..], c))
  }

  /** After `quiesce` has returned for c, no step of any run reads c or is inside one of its callbacks, until that
      address is opened again; items that still point at it are recycled unread. */
  lemma {:induction false} QuiesceIsFinal(s: Sys, es: seq<Event>, c: nat)
    requires Inv(s) && c !in s.ctxs && NeverFaults(s, es) && Opened(c) !in es
    ensures LeavesAlone(s, es, c)
    decreases |es|
  {
    hide Inv, WorkerReads, Step;
    GoneUnread(s, c);
    if es != [] {
      assert es[0] != Opened(c);
      ReadsOnlyLive(s, es[0]);
      StepKeeps(s, es[0]);
      StaysGone(s, es[0], c);
      QuiesceIsFinal(Step(s, es[0]), es[1..], c);
    }
  }

  lemma GoneUnread(s: Sys, c: nat)
    requires Inv(s) && c !in s.ctxs
    ensures !(s.worker.Invoking? && s.worker.ctx == c) && forall e :: !WorkerReads(s, e, c)
  {
    hide OrderInv, Accounted, TicketInv;
    if s.worker.Invoking? { assert s.pool[s.worker.at].executing; }
  }

  lemma StaysGone(s: Sys, e: Event, c: nat)
    requires Enabled(s, e) && Safe(s, e) && e != Opened(c) && c !in s.ctxs
    ensures c !in Step(s, e).ctxs
  {
  }

  /** Every action posted to c before the n-th accepted one has been called, withdrawn, or is nobody's. */
  ghost predicate NoneBefore(s: Sys, c: nat, n: nat) {
    forall i ::
      0 <= i < |s.pool| && s.pool[i].inUse && !s.pool[i].cancelled && !s.pool[i].executing && s.pool[i].ctx == To(c) ==>
      s.pool[i].ticket >= n
  }

  lemma NoneBeforeKept(s: Sys, e: Event, c: nat, n: nat)
    requires Inv(s) && Enabled(s, e) && !LatePost(s, e) && NoneBefore(s, c, n) && n <= |s.accepted|
    ensures Safe(s, e) && NoneBefore(Step(s, e), c, n) && n <= |Step(s, e).accepted|
    ensures |s.accepted| <= |Step(s, e).accepted| && Step(s, e).accepted[..|s.accepted|] == s.accepted
    ensures var s' := Step(s, e);
            s'.invoked == s.invoked ||
            (|s'.invoked| == |s.invoked| + 1 && s'.invoked[..|s.invoked|] == s.invoked
                && s'.invoked[|s.invoked|] < |s.accepted|
             && (s.accepted[s'.invoked[|s.invoked|]] == c ==> s'.invoked[|s.invoked|] >= n))
  {
    hide OrderInv, Accounted, CtxInv;
    ReadsOnlyLive(s, e);
  }

  /** When an address is used again after `quiesce`, no callback of its earlier life is ever called: along every run,
      what is invoked for c from now on was accepted from now on. */
  lemma {:induction false} StaleNeverInvoked(s: Sys, es: seq<Event>, c: nat, n: nat)
    requires Inv(s) && NeverFaults(s, es) && NoneBefore(s, c, n) && n <= |s.accepted|
    ensures var s' := After(s, es);
            && |s.invoked| <= |s'.invoked| && |s.accepted| <= |s'.accepted| && s'.accepted[..|s.accepted|] == s.accepted
            && forall k :: |s.invoked| <= k < |s'.invoked| ==>
                 s'.invoked[k] < |s'.accepted| && (s'.accepted[s'.invoked[k]] == c ==> s'.invoked[k] >= n)
    decreases |es|
  {
    hide Inv, Step, NoneBefore;
    RunKeeps(s, es);
    if es != [] {
      var m := Step(s, es[0]);
      ReadsOnlyLive(s, es[0]);
      StepKeeps(s, es[0]);
      NoneBeforeKept(s, es[0], c, n);
      StaleNeverInvoked(m, es[1..], c, n);
      PrefixInvoked(m, es[1..]);
    }
  }

  lemma {:induction false} PrefixInvoked(s: Sys, es: seq<Event>)
    requires NeverFaults(s, es)
    ensures var s' := After(s, es); |s.invoked| <= |s'.invoked| && s'.invoked[..|s.invoked|] == s.invoked
    decreases |es|
  {
    if es != [] { PrefixInvoked(Step(s, es[0]), es[1..]); }
  }

  lemma GoneMeansNoneBefore(s: Sys, c: nat)
    requires Inv(s) && c !in s.ctxs
    ensures NoneBefore(s, c, |s.accepted|)
  {
  }

  /** No lost wakeup: a teardown that waits unsignalled waits for the callback the worker is in, and the end of that
      callback signals it; until the teardown returns the signal stays. */
  lemma NoLostWakeup(s: Sys, c: nat, e: Event)
    requires Inv(s) && c in s.ctxs && s.ctxs[c].waiting
    ensures !s.ctxs[c].sem ==> s.worker.Invoking? && s.worker.ctx == c && EndSafe(s) && Step(s, Ended).ctxs[c].sem
    ensures s.ctxs[c].sem && Enabled(s, e) && e != Returned(c) && Safe(s, e) ==>
              c in Step(s, e).ctxs && Step(s, e).ctxs[c].waiting && Step(s, e).ctxs[c].sem
    ensures s.ctxs[c].sem ==> Enabled(s, Returned(c))
  {
    hide OrderInv, Accounted, TicketInv;
    assert CtxInv(s, c);
    if s.worker.Invoking? { ReadsOnlyLive(s, Ended); }
  }

  lemma UnsignalledInside(s: Sys, c: nat)
    requires Inv(s) && c in s.ctxs && s.ctxs[c].waiting && s.worker.Invoking? && s.worker.ctx == c
    ensures !s.ctxs[c].sem
  {
    hide OrderInv, Accounted, TicketInv, IndexInv, ItemInv;
    assert CtxInv(s, c);
  }

  lemma StaysBlocked(s: Sys, e: Event, c: nat)
    requires Enabled(s, e) && Safe(s, e) && e != Ended && s.worker.Invoking? && c in s.ctxs && s.ctxs[c].waiting
             && !s.ctxs[c].sem
    ensures var s' := Step(s, e); s'.worker == s.worker && c in s'.ctxs && s'.ctxs[c].waiting
  {
  }

  /** `quiesce` called inside a callback of the same connection waits for itself: without the end of the callback the
      signal never comes. */
  lemma {:induction false} QuiesceOnWorkerBlocks(s: Sys, es: seq<Event>, c: nat)
    requires Inv(s) && NeverFaults(s, es) && c in s.ctxs && s.ctxs[c].waiting
    requires s.worker.Invoking? && s.worker.ctx == c && Ended !in es
    ensures var s' := After(s, es); c in s'.ctxs && s'.ctxs[c].waiting && !s'.ctxs[c].sem && s'.worker == s.worker
    decreases |es|
  {
    hide Inv, Step;
    if es == [] {
      UnsignalledInside(s, c);
    } else {
      assert es[0] != Ended;
      ReadsOnlyLive(s, es[0]);
      StepKeeps(s, es[0]);
      UnsignalledInside(s, c);
      StaysBlocked(s, es[0], c);
      QuiesceOnWorkerBlocks(Step(s, es[0]), es[1..], c);
    }
  }

  // ---- Conservation -----------------------------------------------------------------------------

  /** Once nothing is queued and the worker is idle, the accepted actions are the called ones, each called once and in
      the order of acceptance, together with the withdrawn ones. */
  lemma Conservation(depth: nat, es: seq<Event>)
    requires NeverFaults(Start(depth), es)
    ensures var s := After(Start(depth), es);
            && (forall j, k :: 0 <= j < k < |s.invoked| ==> s.invoked[j] < s.invoked[k])
            && (forall t :: t in s.invoked ==> t < |s.accepted| && t !in s.withdrawn)
            && (s.queue == [] && s.worker == Idle ==> forall t :: 0 <= t < |s.accepted| ==>
               t in s.invoked
               || t in s.withdrawn)
  {
    StartInv(depth);
    RunKeeps(Start(depth), es);
    var s := After(Start(depth), es);
    if s.queue == [] && s.worker == Idle {
      forall t | 0 <= t < |s.accepted| ensures t in s.invoked || t in s.withdrawn {
        assert forall i :: 0 <= i < |s.pool| ==> !Waits(s.pool[i], t);
      }
    }
  }

  /** Only a `quiesce` of its own connection withdraws an action. */
  lemma WithdrawnByOwner(s: Sys, e: Event, t: nat)
    requires Inv(s) && Enabled(s, e) && Safe(s, e) && t in Step(s, e).withdrawn && t !in s.withdrawn
    ensures t < |s.accepted| && e == Quiesced(s.accepted[t])
  {
    hide OrderInv, Accounted, IndexInv;
  }

  /** Posting is refused while the connection shuts down, and otherwise exactly when every slot is taken; the slot of an
      accepted action joins the end of the queue and its connection counts it. */
  lemma PostAccepts(s: Sys, c: nat)
    requires Inv(s) && c in s.ctxs
    ensures var (s', code) := Post(s, c);
            && code == (if s.ctxs[c].shutdown then InvalidState
                        else if forall i :: 0 <= i < |s.pool| ==> s.pool[i].inUse then NoMem else OK)
            && s'.accepted == (if code == OK then s.accepted + [c] else s.accepted)
            && (code != OK ==> s' == s)
            && (code == OK ==>
                  && |s'.queue| == |s.queue| + 1 && s'.queue[..|s.queue|] == s.queue
                  && s'.queue[|s.queue|] < |s.pool| && !s.pool[s'.queue[|s.queue|]].inUse
                  && s'.ctxs == s.ctxs[c := s.ctxs[c].(pending := s.ctxs[c].pending + 1)])
  {
    if FirstFree(s.pool, 0) < |s.pool| { QueueHasRoom(s); }
  }

  /** What `quiesce` does, exactly: it waits if and only if a callback of the connection is running, refuses every later
      post, withdraws every action of the connection that has not begun, and touches nothing else. */
  lemma QuiesceCloses(s: Sys, c: nat)
    requires Inv(s) && Enabled(s, Quiesced(c))
    ensures var s' := Step(s, Quiesced(c));
            && |s'.pool| == |s.pool| && s'.queue == s.queue && s'.invoked == s.invoked && s'.worker == s.worker
            && (c in s'.ctxs <==> s.worker.Invoking? && s.worker.ctx == c)
            && (c in s'.ctxs ==> s'.ctxs[c].waiting && !s'.ctxs[c].sem && Post(s', c).1 == InvalidState
                                 && s'.ctxs[c].generation == s.ctxs[c].generation + 1)
            && (forall i :: 0 <= i < |s.pool| ==>
                  if s.pool[i].inUse && !s.pool[i].cancelled && !s.pool[i].executing && s.pool[i].ctx == To(c)
                  then s'.pool[i] == s.pool[i].(cancelled := true) && s.pool[i].ticket in s'.withdrawn
                  else s'.pool[i] == s.pool[i])
            && (forall d :: d != c ==> (d in s'.ctxs <==> d in s.ctxs) && (d in s.ctxs ==> s'.ctxs[d] == s.ctxs[d]))
  {
    hide OrderInv, Accounted, TicketInv;
    assert CtxInv(s, c);
    var s' := Quiesce(s, c);
    forall i | 0 <= i < |s.pool| && Live(s.pool[i], c) ensures s.pool[i].ticket in s'.withdrawn {}
  }
}

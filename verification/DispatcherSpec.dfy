/** The callback dispatcher as interleaved atomic steps: the threads that post actions, the one worker, and the
    threads that tear a connection down.  Memory is part of the state: `ctxs` holds the connections that may be
    read; `quiesce` takes a connection out when it returns, and the same address may be opened again later. */
module DispatcherSpec {
  import opened Ax25Types

  datatype Ref = Null | To(id: nat)

  /** A pool item; `ticket` is the position of its action among all accepted ones and stands for the action. */
  datatype Item = Item(inUse: bool, cancelled: bool, executing: bool, ctx: Ref, generation: nat, ticket: nat)

  /** The dispatcher fields of a connection; `waiting` says that its `quiesce` call blocks on the semaphore. */
  datatype Ctx = Ctx(generation: nat, pending: nat, executing: nat, shutdown: bool, sem: bool, waiting: bool)

  datatype Worker = Idle | Got(index: nat) | Invoking(at: nat, ctx: nat)

  /** `accepted` lists the connection of every accepted action, `invoked` the tickets whose callbacks were called,
      `withdrawn` those cancelled by a `quiesce`. */
  datatype Sys = Sys(pool: seq<Item>, queue: seq<nat>, ctxs: map<nat, Ctx>, worker: Worker,
                     accepted: seq<nat>, invoked: seq<nat>, withdrawn: set<nat>)

  const FREE: Item := Item(false, false, false, Null, 0, 0)

  function Start(depth: nat): Sys {
    Sys(seq(depth, _ => Item(false, false, false, Null, 0, 0)), [], map[], Idle, [], [], {})
  }

  // ---- The locked sections --------------------------------------------------------------------------

  /** A queued item that still counts as pending for c. */
  predicate Live(it: Item, c: nat) { it.inUse && !it.cancelled && !it.executing && it.ctx == To(c) }

  function Count(pool: seq<Item>, c: nat): nat {
    if pool == [] then 0 else Count(pool[..|pool| - 1], c) + if Live(pool[|pool| - 1], c) then 1 else 0
  }

  function Minus(a: nat, b: nat): nat { if b <= a then a - b else 0 }

  /** The first free slot from i on, or the length of the pool. */
  function FirstFree(pool: seq<Item>, i: nat): (k: nat)
    requires i <= |pool|
    ensures i <= k <= |pool| && (k < |pool| ==> !pool[k].inUse)
    ensures forall j :: i <= j < k ==> pool[j].inUse
    decreases |pool| - i
  {
    if i == |pool| || !pool[i].inUse then i else FirstFree(pool, i + 1)
  }

  /** `ax25_conn_dispatcher_enqueue`. */
  function Post(s: Sys, c: nat): (Sys, Code)
    requires c in s.ctxs
  {
    var x := s.ctxs[c];
    var slot := FirstFree(s.pool, 0);
    if x.shutdown then (s, InvalidState)
    else if slot == |s.pool| then (s, NoMem)
    else
      var item := Item(true, false, false, To(c), x.generation, |s.accepted|);
      if |s.queue| >= |s.pool| then (s.(pool := s.pool[slot := item.(inUse := false, ctx := Null)]), NoMem)
      else (s.(pool := s.pool[slot := item], queue := s.queue + [slot],
               ctxs := s.ctxs[c := x.(pending := x.pending + 1)], accepted := s.accepted + [c]), OK)
  }

  /** `xQueueReceive` in the worker. */
  function Receive(s: Sys): Sys
    requires s.worker == Idle && s.queue != []
  {
    s.(queue := s.queue[1..], worker := if s.queue[0] >= |s.pool| then Idle else Got(s.queue[0]))
  }

  /** `maybe_signal_quiesced`. */
  function Signalled(x: Ctx): Ctx {
    if x.shutdown && x.pending == 0 && x.executing == 0 then x.(sem := true) else x
  }

  /** The connections `Begin` reads. */
  predicate BeginSafe(s: Sys) {
    s.worker.Got? && s.worker.index < |s.pool| &&
    var it := s.pool[s.worker.index];
    it.inUse && !it.cancelled && it.ctx.To? ==> it.ctx.id in s.ctxs
  }

  /** The worker's first section: drop the item or claim it. */
  function Begin(s: Sys): Sys
    requires BeginSafe(s)
  {
    var i := s.worker.index;
    var it := s.pool[i];
    if !it.inUse then s.(worker := Idle)
    else if it.cancelled || it.ctx.Null? || it.generation != s.ctxs[it.ctx.id].generation
      || s.ctxs[it.ctx.id].shutdown then
      var dropped := s.(pool := s.pool[i := it.(inUse := false, executing := false, cancelled := false, ctx := Null)],
          worker := Idle);
      if !it.cancelled && it.ctx.To? && s.ctxs[it.ctx.id].pending > 0 then
        var x := s.ctxs[it.ctx.id];
        dropped.(ctxs := s.ctxs[it.ctx.id := Signalled(x.(pending := x.pending - 1))])
      else dropped
    else
      var c := it.ctx.id;
      var x := s.ctxs[c];
      s.(pool := s.pool[i := it.(executing := true)],
         ctxs := s.ctxs[c := x.(pending := Minus(x.pending, 1), executing := x.executing + 1)],
         worker := Invoking(i, c), invoked := s.invoked + [it.ticket])
  }

  predicate EndSafe(s: Sys) { s.worker.Invoking? && s.worker.at < |s.pool| && s.worker.ctx in s.ctxs }

  /** The worker's second section, after the callback has returned. */
  function End(s: Sys): Sys
    requires EndSafe(s)
  {
    var i, c := s.worker.at, s.worker.ctx;
    var x := s.ctxs[c];
    s.(pool := s.pool[i := s.pool[i].(inUse := false, executing := false, cancelled := false, ctx := Null)],
       ctxs := if x.executing > 0 then s.ctxs[c := Signalled(x.(executing := x.executing - 1))] else s.ctxs,
       worker := Idle)
  }

  function CancelItem(it: Item, c: nat): Item { if Live(it, c) then it.(cancelled := true) else it }

  function CancelAll(pool: seq<Item>, c: nat): (r: seq<Item>)
    ensures |r| == |pool|
  {
    seq(|pool|, i requires 0 <= i < |pool| => CancelItem(pool[i], c))
  }

  /** The locked section of `ax25_conn_dispatcher_quiesce`, which returns at once or goes on to wait. */
  function Quiesce(s: Sys, c: nat): Sys
    requires c in s.ctxs
  {
    var x := s.ctxs[c];
    var pending := Minus(x.pending, Count(s.pool, c));
    var y := x.(shutdown := true, generation := x.generation + 1, pending := pending);
    var wait := pending != 0 || x.executing != 0;
    s.(pool := CancelAll(s.pool, c),
       ctxs := if wait then s.ctxs[c := y.(sem := false, waiting := true)] else s.ctxs - {c},
       withdrawn := s.withdrawn + set i | 0 <= i < |s.pool| && Live(s.pool[i], c) :: s.pool[i].ticket)
  }

  // ---- Runs --------------------------------------------------------------------------------------------

  datatype Event = Opened(c: nat) | Posted(c: nat) | Received | Began | Ended | Quiesced(c: nat) | Returned(c: nat)

  /** When an event can happen: a connection is opened where none is, a post at any time, one `quiesce` per connection,
      which returns once the semaphore is given. */
  predicate Enabled(s: Sys, e: Event) {
    match e
    case Opened(c) => c !in s.ctxs
    case Posted(c) => true
    case Received => s.worker == Idle && s.queue != []
    case Began => s.worker.Got?
    case Ended => s.worker.Invoking?
    case Quiesced(c) => c in s.ctxs && !s.ctxs[c].waiting
    case Returned(c) => c in s.ctxs && s.ctxs[c].waiting && s.ctxs[c].sem
  }

  /** Every read of a connection in the step is of one that has not been freed. */
  predicate Safe(s: Sys, e: Event) {
    match e
    case Began => BeginSafe(s)
    case Ended => EndSafe(s)
    case Posted(c) => c in s.ctxs
    case _ => true
  }

  function Step(s: Sys, e: Event): Sys
    requires Enabled(s, e) && Safe(s, e)
  {
    match e
    case Opened(c) => s.(ctxs := s.ctxs[c := Ctx(1, 0, 0, false, false, false)])
    case Posted(c) => Post(s, c).0
    case Received => Receive(s)
    case Began => Begin(s)
    case Ended => End(s)
    case Quiesced(c) => Quiesce(s, c)
    case Returned(c) => s.(ctxs := s.ctxs - {c})
  }
}

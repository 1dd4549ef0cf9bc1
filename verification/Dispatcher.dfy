/** The dispatcher's locked sections as the source writes them: one shared pool and queue, changed in place by loops.
    Each is proved to be the step of DispatcherSpec with its name. */
module Dispatcher {
  import opened Ax25Types
  import opened DispatcherSpec

  class CallbackDispatcher {
    const pool: array<Item>
    var queue: seq<nat>
    var ctxs: map<nat, Ctx>
    var worker: Worker
    var accepted: seq<nat>
    var invoked: seq<nat>
    ghost var withdrawn: set<nat>

    ghost function Snapshot(): Sys
      reads this, pool
    {
      Sys(pool[..], queue, ctxs, worker, accepted, invoked, withdrawn)
    }

    constructor (depth: nat)
      ensures fresh(pool) && Snapshot() == Start(depth)
    {
      pool := new Item[depth](_ => FREE);
      queue, ctxs, worker, accepted, invoked, withdrawn := [], map[], Idle, [], [], {};
      new;
      assert pool[..] == Start(depth).pool;
    }

    /** `ax25_conn_dispatcher_enqueue`. */
    method Enqueue(c: nat) returns (code: Code)
      requires c in ctxs
      modifies this, pool
      ensures Snapshot() == Post(old(Snapshot()), c).0 && code == Post(old(Snapshot()), c).1
    {
      if ctxs[c].shutdown { return InvalidState; }
      var slot := 0;
      while slot < pool.Length && pool[slot].inUse
        invariant slot <= pool.Length && FirstFree(pool[..], 0) == FirstFree(pool[..], slot)
      {
        slot := slot + 1;
      }
      if slot == pool.Length { return NoMem; }
      ghost var before := pool[..];
      pool[slot] := Item(true, false, false, To(c), ctxs[c].generation, |accepted|);
      if |queue| >= pool.Length {
        pool[slot] := pool[slot].(inUse := false, ctx := Null);
        assert pool[..] == before[slot := pool[slot]];
        return NoMem;
      }
      ctxs := ctxs[c := ctxs[c].(pending := ctxs[c].pending + 1)];
      queue := queue + [slot];
      accepted := accepted + [c];
      assert pool[..] == before[slot := pool[slot]];
      return OK;
    }

    /** The worker's blocking receive, when the queue holds something. */
    method Take()
      requires worker == Idle && queue != []
      modifies this
      ensures Snapshot() == Receive(old(Snapshot()))
    {
      var index := queue[0];
      queue := queue[1..];
      worker := if index >= pool.Length then Idle else Got(index);
    }

    /** The worker's first locked section. */
    method BeginItem()
      requires BeginSafe(Snapshot())
      modifies this, pool
      ensures Snapshot() == Begin(old(Snapshot()))
    {
      ghost var before := pool[..];
      var i := worker.index;
      var item := pool[i];
      if !item.inUse {
        worker := Idle;
        return;
      }
      if item.cancelled || item.ctx == Null || item.generation != ctxs[item.ctx.id].generation
        || ctxs[item.ctx.id].shutdown {
        if !item.cancelled && item.ctx != Null && ctxs[item.ctx.id].pending > 0 {
          var c := item.ctx.id;
          ctxs := ctxs[c := Signalled(ctxs[c].(pending := ctxs[c].pending - 1))];
        }
        pool[i] := item.(inUse := false, executing := false, cancelled := false, ctx := Null);
        worker := Idle;
        assert pool[..] == before[i := pool[i]];
        return;
      }
      var c := item.ctx.id;
      var x := ctxs[c];
      pool[i] := item.(executing := true);
      if x.pending > 0 { x := x.(pending := x.pending - 1); }
      ctxs := ctxs[c := x.(executing := x.executing + 1)];
      worker := Invoking(i, c);
      invoked := invoked + [item.ticket];
      assert pool[..] == before[i := pool[i]];
    }

    /** The worker's second locked section. */
    method EndItem()
      requires EndSafe(Snapshot())
      modifies this, pool
      ensures Snapshot() == End(old(Snapshot()))
    {
      ghost var before := pool[..];
      var i, c := worker.at, worker.ctx;
      pool[i] := pool[i].(executing := false, inUse := false, cancelled := false, ctx := Null);
      if ctxs[c].executing > 0 { ctxs := ctxs[c := Signalled(ctxs[c].(executing := ctxs[c].executing - 1))]; }
      worker := Idle;
      assert pool[..] == before[i := pool[i]];
    }

    /** The locked section of `ax25_conn_dispatcher_quiesce`; `wait` says whether the call goes on to block. */
    method QuiesceSection(c: nat) returns (wait: bool)
      requires c in ctxs
      modifies this, pool
      ensures Snapshot() == Quiesce(old(Snapshot()), c)
      ensures wait <==> c in ctxs
    {
      ghost var before := pool[..];
      ghost var y := ctxs[c].(shutdown := true, generation := ctxs[c].generation + 1);
      ghost var tickets: set<nat> := {};
      var x := ctxs[c].(shutdown := true, generation := ctxs[c].generation + 1);
      for i := 0 to pool.Length
        modifies pool
        invariant forall j :: 0 <= j < i ==> pool[j] == CancelItem(before[j], c)
        invariant forall j :: i <= j < pool.Length ==> pool[j] == before[j]
        invariant x == y.(pending := Minus(y.pending, Count(before[..i], c)))
        invariant tickets == set j | 0 <= j < i && Live(before[j], c) :: before[j].ticket
      {
        assert before[..i + 1][..i] == before[..i];
        var item := pool[i];
        if item.inUse && !item.executing && !item.cancelled && item.ctx == To(c) {
          pool[i] := item.(cancelled := true);
          if x.pending > 0 { x := x.(pending := x.pending - 1); }
          tickets := tickets + {item.ticket};
        }
      }
      assert before[..pool.Length] == before;
      assert pool[..] == CancelAll(before, c);
      withdrawn := withdrawn + tickets;
      wait := x.pending != 0 || x.executing != 0;
      ctxs := if wait then ctxs[c := x.(sem := false, waiting := true)] else ctxs - {c};
    }
  }
}

/** The buffer pool under any number of threads: a counting semaphore, the flags of the buffers under a mutex, and the
    moments between the two. */
module BufferPool {

  /** `tokens` counts the threads that have taken the semaphore and not yet looked for a buffer, `givers` those that
      have returned a buffer and not yet given the semaphore. */
  datatype Pool = Pool(inUse: seq<bool>, len: seq<nat>, sem: nat, tokens: nat, givers: nat)

  datatype Grant = None | Some(index: nat)

  function Start(size: nat): Pool { Pool(seq(size, _ => false), seq(size, _ => 0), size, 0, 0) }

  function FirstFree(inUse: seq<bool>, i: nat): (k: nat)
    requires i <= |inUse|
    ensures i <= k <= |inUse| && (k < |inUse| ==> !inUse[k]) && forall j :: i <= j < k ==> inUse[j]
    decreases |inUse| - i
  {
    if i == |inUse| || !inUse[i] then i else FirstFree(inUse, i + 1)
  }

  /** The locked search of `ax25_buffer_alloc`; without a free buffer the token is given back. */
  function Claim(p: Pool): (Pool, Grant)
    requires p.tokens > 0 && |p.len| == |p.inUse|
  {
    var k := FirstFree(p.inUse, 0);
    if k < |p.inUse| then (p.(inUse := p.inUse[k := true], len := p.len[k := 0], tokens := p.tokens - 1), Some(k))
    else (p.(tokens := p.tokens - 1, sem := p.sem + 1), None)
  }

  /** The locked section of `ax25_buffer_free`: a buffer of another pool or one that is not in use is left alone. */
  function Return(p: Pool, i: int): Pool
    requires |p.len| == |p.inUse|
  {
    if 0 <= i < |p.inUse| && p.inUse[i]
      then p.(inUse := p.inUse[i := false], len := p.len[i := 0], givers := p.givers + 1) else p
  }

  datatype Event = TakesToken | Claims | Returns(i: int) | Gives | Fills(buffer: nat, n: nat)

  predicate Enabled(p: Pool, e: Event) {
    match e
    case TakesToken => p.sem > 0
    case Claims => p.tokens > 0
    case Returns(_) => true
    case Gives => p.givers > 0
    case Fills(b, _) => b < |p.inUse| && p.inUse[b]
  }

  function Step(p: Pool, e: Event): Pool
    requires Enabled(p, e) && |p.len| == |p.inUse|
  {
    match e
    case TakesToken => p.(sem := p.sem - 1, tokens := p.tokens + 1)
    case Claims => Claim(p).0
    case Returns(i) => Return(p, i)
    case Gives => p.(givers := p.givers - 1, sem := p.sem + 1)
    case Fills(b, n) => p.(len := p.len[b := n])
  }

  function Free(inUse: seq<bool>): nat {
    if inUse == [] then 0 else Free(inUse[..|inUse| - 1]) + if inUse[|inUse| - 1] then 0 else 1
  }

  /** Every free buffer has its token: in the semaphore, with an allocating thread, or with a freeing one. */
  ghost predicate Inv(p: Pool) { |p.len| == |p.inUse| && Free(p.inUse) == p.sem + p.tokens + p.givers }

  lemma {:induction false} FreeUpdate(inUse: seq<bool>, i: nat, b: bool)
    requires i < |inUse|
    ensures Free(inUse[i := b]) + (if inUse[i] then 0 else 1) == Free(inUse) + if b then 0 else 1
  {
    var n := |inUse| - 1;
    if i == n {
      assert inUse[i := b][..n] == inUse[..n];
    } else {
      assert inUse[i := b][..n] == inUse[..n][i := b];
      FreeUpdate(inUse[..n], i, b);
    }
  }

  lemma {:induction false} FreeZero(inUse: seq<bool>)
    ensures Free(inUse) == 0 <==> forall i :: 0 <= i < |inUse| ==> inUse[i]
    ensures Free(inUse) <= |inUse|
  {
    if inUse != [] { FreeZero(inUse[..|inUse| - 1]); }
  }

  lemma {:induction false} StartInv(size: nat)
    ensures Inv(Start(size))
  {
    if size > 0 {
      StartInv(size - 1);
      assert Start(size).inUse[..size - 1] == Start(size - 1).inUse;
    }
  }

  lemma StepKeeps(p: Pool, e: Event)
    requires Inv(p) && Enabled(p, e)
    ensures Inv(Step(p, e)) && |Step(p, e).inUse| == |p.inUse|
  {
    match e
    case Claims => ClaimSucceeds(p);
    case Returns(i) => if 0 <= i < |p.inUse| { FreeUpdate(p.inUse, i, false); }
    case _ =>
  }

  /** The allocation-inconsistency branch cannot be taken: a thread with a token always finds a buffer, one that no
      thread holds, and it comes empty. */
  lemma ClaimSucceeds(p: Pool)
    requires Inv(p) && p.tokens > 0
    ensures var (q, g) := Claim(p);
            g.Some? && !p.inUse[g.index] && q.inUse == p.inUse[g.index := true]
            && q.len[g.index] == 0 && Inv(q)
  {
    FreeZero(p.inUse);
    var k := FirstFree(p.inUse, 0);
    FreeUpdate(p.inUse, k, true);
  }

  /** A second free of the same buffer, and the free of a buffer of another pool, change nothing. */
  lemma DoubleFree(p: Pool, i: int)
    requires Inv(p)
    ensures Return(Return(p, i), i) == Return(p, i)
    ensures !(0 <= i < |p.inUse| && p.inUse[i]) ==> Return(p, i) == p
  {
  }

  /** The free of a buffer in use makes it available and empty, brings one token back, and touches no other buffer. */
  lemma FreeReturns(p: Pool, i: nat)
    requires Inv(p) && i < |p.inUse| && p.inUse[i]
    ensures var q := Return(p, i);
            && q.inUse == p.inUse[i := false] && q.len == p.len[i := 0] && Free(q.inUse) == Free(p.inUse) + 1
            && q.givers == p.givers + 1 && Enabled(q, Gives) && Step(q, Gives).sem == p.sem + 1
  {
    FreeUpdate(p.inUse, i, false);
  }

  // ---- Runs ---------------------------------------------------------------------------------------------------

  ghost predicate Schedule(p: Pool, es: seq<Event>)
    decreases |es|
  {
    es != [] ==> Enabled(p, es[0]) && |p.len| == |p.inUse| && Schedule(Step(p, es[0]), es[1..])
  }

  ghost function After(p: Pool, es: seq<Event>): Pool
    requires Schedule(p, es)
    decreases |es|
  {
    if es == [] then p else After(Step(p, es[0]), es[1..])
  }

  /** What the allocations of a run hand out, in order. */
  ghost function Granted(p: Pool, es: seq<Event>): seq<Grant>
    requires Schedule(p, es)
    decreases |es|
  {
    if es == [] then [] else (if es[0] == Claims then [Claim(p).1] else []) + Granted(Step(p, es[0]), es[1..])
  }

  lemma {:induction false} RunKeeps(p: Pool, es: seq<Event>)
    requires Inv(p) && Schedule(p, es)
    ensures Inv(After(p, es)) && |After(p, es).inUse| == |p.inUse|
    ensures None !in Granted(p, es)
    decreases |es|
  {
    if es != [] {
      StepKeeps(p, es[0]);
      RunKeeps(Step(p, es[0]), es[1..]);
      if es[0] == Claims { ClaimSucceeds(p); }
    }
  }

  /** Over any run every free buffer is accounted for, the semaphore never exceeds the size of the pool, and when no
      call is under way the count that `ax25_buffer_pool_available` reports is the number of free buffers. */
  lemma Conservation(size: nat, es: seq<Event>)
    requires Schedule(Start(size), es)
    ensures var p := After(Start(size), es);
            && Free(p.inUse) == p.sem + p.tokens + p.givers <= size
            && (p.tokens == 0 && p.givers == 0 ==> p.sem == Free(p.inUse))
    ensures None !in Granted(Start(size), es)
  {
    StartInv(size);
    RunKeeps(Start(size), es);
    FreeZero(After(Start(size), es).inUse);
  }

  /** A buffer in use is not handed out again before somebody frees it. */
  lemma {:induction false} NotHandedOutTwice(p: Pool, es: seq<Event>, i: nat)
    requires Inv(p) && Schedule(p, es) && i < |p.inUse| && p.inUse[i] && Returns(i) !in es
    ensures Some(i) !in Granted(p, es) && i < |After(p, es).inUse| && After(p, es).inUse[i]
    decreases |es|
  {
    if es != [] {
      assert es[0] in es;
      StepKeeps(p, es[0]);
      if es[0] == Claims { ClaimSucceeds(p); }
      NotHandedOutTwice(Step(p, es[0]), es[1..], i);
    }
  }

  // ---- The pool object --------------------------------------------------------------------------------------------

  class SharedPool {
    const inUse: array<bool>
    const len: array<nat>
    var sem: nat
    ghost var tokens: nat
    ghost var givers: nat

    ghost function Snapshot(): Pool
      reads this, inUse, len
    {
      Pool(inUse[..], len[..], sem, tokens, givers)
    }

    constructor (size: nat)
      ensures fresh(inUse) && fresh(len) && Snapshot() == Start(size)
    {
      inUse := new bool[size](_ => false);
      len := new nat[size](_ => 0);
      sem, tokens, givers := size, 0, 0;
      new;
      assert inUse[..] == Start(size).inUse && len[..] == Start(size).len;
    }

    method TakeSemaphore() returns (ok: bool)
      requires len.Length == inUse.Length
      modifies this
      ensures ok <==> old(sem) > 0
      ensures Snapshot() == if ok then Step(old(Snapshot()), TakesToken) else old(Snapshot())
    {
      if sem == 0 { return false; }
      sem, tokens := sem - 1, tokens + 1;
      return true;
    }

    /** The locked search of `ax25_buffer_alloc`. */
    method ClaimBuffer() returns (g: Grant)
      requires tokens > 0 && len.Length == inUse.Length
      modifies this, inUse, len
      ensures Snapshot() == Claim(old(Snapshot())).0 && g == Claim(old(Snapshot())).1
    {
      ghost var p := Snapshot();
      tokens := tokens - 1;
      for i := 0 to inUse.Length
        invariant Snapshot() == p.(tokens := p.tokens - 1) && FirstFree(p.inUse, 0) == FirstFree(p.inUse, i)
      {
        if !inUse[i] {
          inUse[i] := true;
          len[i] := 0;
          assert inUse[..] == p.inUse[i := true] && len[..] == p.len[i := 0];
          return Some(i);
        }
      }
      sem := sem + 1;
      return None;
    }

    /** The locked section of `ax25_buffer_free`; `give` tells the caller to give the semaphore. */
    method ReturnBuffer(i: int) returns (give: bool)
      requires len.Length == inUse.Length
      modifies this, inUse, len
      ensures Snapshot() == Return(old(Snapshot()), i)
      ensures give <==> 0 <= i < inUse.Length && old(0 <= i < inUse.Length && inUse[i])
    {
      ghost var p := Snapshot();
      if i < 0 || i >= inUse.Length { return false; }
      if !inUse[i] { return false; }
      inUse[i] := false;
      len[i] := 0;
      givers := givers + 1;
      assert inUse[..] == p.inUse[i := false] && len[..] == p.len[i := 0];
      return true;
    }

    method GiveSemaphore()
      requires givers > 0
      modifies this
      ensures Snapshot() == old(Snapshot()).(sem := old(sem) + 1, givers := old(givers) - 1)
    {
      sem, givers := sem + 1, givers - 1;
    }
  }
}

/** The transmit window of a session: the ring of eight pending I frames between V(A) and V(S). */
module TxWindow {
  import opened Ax25Types

  datatype Slot = Slot(data: seq<byte>, ns: Seq8, inUse: bool, transmitted: bool)

  /** The eight pending I frames, indexed by sequence number. */
  type Ring = q: seq<Slot> | |q| == 8 witness seq(8, _ => Slot([], 0, false, false))

  datatype Tx = Tx(va: Seq8, vs: Seq8, queue: Ring)

  function Next(s: Seq8): Seq8 { if s == 7 then 0 else s + 1 }

  /** How far s lies after a: `MOD8(s - a)`. */
  function Off(a: Seq8, s: Seq8): Seq8 { if a <= s then s - a else s - a + 8 }

  /** s lies in [a, e) modulo 8. */
  predicate Between(a: Seq8, s: Seq8, e: Seq8) { Off(a, s) < Off(a, e) }

  function Outstanding(w: Tx): Seq8 { Off(w.va, w.vs) }

  predicate IsValidNr(w: Tx, nr: Seq8) {
    if w.va <= w.vs then w.va <= nr && nr <= w.vs else nr >= w.va || nr <= w.vs
  }

  /** The sequence numbers in [s, e) whose frame is queued but not transmitted, in ring order. */
  function Unsent(q: Ring, s: Seq8, e: Seq8): seq<Seq8>
    decreases Off(s, e)
  {
    if s == e then []
    else (if q[s].inUse && !q[s].transmitted then [s] else []) + Unsent(q, Next(s), e)
  }

  function MarkSent(w: Tx): Tx {
    Tx(w.va, w.vs, seq(8, s requires 0 <= s < 8 =>
      if Between(w.va, s, w.vs) && w.queue[s].inUse then w.queue[s].(transmitted := true) else w.queue[s]))
  }

  /** Frames from `a` on are to be sent again. */
  function MarkUnsent(w: Tx, a: Seq8): Tx {
    Tx(w.va, w.vs, seq(8, s requires 0 <= s < 8 =>
      if Between(a, s, w.vs) then w.queue[s].(transmitted := false) else w.queue[s]))
  }

  /** Frames before `nr` are acknowledged. */
  function Retire(w: Tx, nr: Seq8): Tx {
    Tx(nr, w.vs, seq(8, s requires 0 <= s < 8 =>
      if Between(w.va, s, nr) then w.queue[s].(inUse := false) else w.queue[s]))
  }

  function Clear(w: Tx): Tx {
    Tx(0, 0, seq(8, s requires 0 <= s < 8 => Slot([], w.queue[s].ns, false, false)))
  }

  function Enqueue(w: Tx, data: seq<byte>): Tx {
    Tx(w.va, Next(w.vs), w.queue[w.vs := Slot(data, w.vs, true, false)])
  }

  function Empty(): Tx { Tx(0, 0, seq(8, _ => Slot([], 0, false, false))) }

  // ---- What the window keeps ------------------------------------------------------------------

  /** Slot s is in use exactly when s is in [va, vs); it then carries sequence number s and a sendable payload;
      at most k slots are outstanding. */
  ghost predicate TxInv(w: Tx, k: nat) {
    && (forall s: Seq8 :: w.queue[s].inUse <==> Between(w.va, s, w.vs))
    && (forall s: Seq8 :: w.queue[s].inUse ==> w.queue[s].ns == s && 0 < |w.queue[s].data| <= MAX_INFO_LEN)
    && Outstanding(w) <= k
  }

  /** Some transmitted frame is unacknowledged. */
  ghost predicate InFlight(w: Tx) { exists s: Seq8 :: w.queue[s].inUse && w.queue[s].transmitted }

  /** Some queued frame has yet to be transmitted. */
  ghost predicate Backlog(w: Tx) { exists s: Seq8 :: w.queue[s].inUse && !w.queue[s].transmitted }

  /** `Unsent` lists exactly the queued, untransmitted frames of [s, e), in ring order and without repetition. */
  lemma {:induction false} UnsentMembers(q: Ring, s: Seq8, e: Seq8)
    ensures forall x: Seq8 :: x in Unsent(q, s, e) <==> Between(s, x, e) && q[x].inUse && !q[x].transmitted
    ensures |Unsent(q, s, e)| <= Off(s, e)
    ensures forall i, j :: 0 <= i < j < |Unsent(q, s, e)| ==> Off(s, Unsent(q, s, e)[i]) < Off(s, Unsent(q, s, e)[j])
    decreases Off(s, e)
  {
    if s != e {
      UnsentMembers(q, Next(s), e);
      var rest := Unsent(q, Next(s), e);
      forall x | x in rest ensures 0 < Off(s, x) && Off(s, x) == Off(Next(s), x) + 1 {
        assert Between(Next(s), x, e);
      }
    }
  }

  /** The two-branch test of the source is the modulo-8 statement va <= nr <= vs. */
  lemma ValidNrMeaning(w: Tx, nr: Seq8)
    ensures IsValidNr(w, nr) <==> Off(w.va, nr) <= Off(w.va, w.vs)
  {
  }

  lemma MarkSentKeeps(w: Tx, k: nat)
    requires TxInv(w, k)
    ensures TxInv(MarkSent(w), k) && !Backlog(MarkSent(w))
  {
  }

  lemma UnsentIsBacklog(w: Tx, k: nat)
    requires TxInv(w, k)
    ensures Unsent(w.queue, w.va, w.vs) == [] <==> !Backlog(w)
    ensures |Unsent(w.queue, w.va, w.vs)| <= k
  {
    UnsentMembers(w.queue, w.va, w.vs);
    if Backlog(w) {
      var s: Seq8 :| w.queue[s].inUse && !w.queue[s].transmitted;
      assert s in Unsent(w.queue, w.va, w.vs);
    } else if |Unsent(w.queue, w.va, w.vs)| > 0 {
      var s := Unsent(w.queue, w.va, w.vs)[0];
      assert s in Unsent(w.queue, w.va, w.vs);
      assert Backlog(w);
    }
  }

  lemma RetireSlots(w: Tx, nr: Seq8)
    ensures forall s: Seq8 ::
              var x := Retire(w, nr).queue[s]; x == w.queue[s].(inUse := x.inUse) && (x.inUse ==> w.queue[s].inUse)
  {
  }

  lemma RetireKeeps(w: Tx, nr: Seq8, k: nat)
    requires TxInv(w, k) && IsValidNr(w, nr)
    ensures TxInv(Retire(w, nr), k)
    ensures forall s: Seq8 :: Between(nr, s, w.vs) ==> Retire(w, nr).queue[s] == w.queue[s]
    ensures InFlight(Retire(w, nr)) ==> InFlight(w)
    ensures Backlog(Retire(w, nr)) ==> Backlog(w)
    ensures nr == w.vs ==> !InFlight(Retire(w, nr))
    ensures nr == w.va ==> Retire(w, nr) == w
  {
    var v := Retire(w, nr);
    forall s: Seq8 ensures v.queue[s].inUse <==> Between(nr, s, w.vs) {}
    RetireSlots(w, nr);
    if InFlight(v) {
      var s: Seq8 :| v.queue[s].inUse && v.queue[s].transmitted;
      assert w.queue[s].inUse && w.queue[s].transmitted;
    }
    if Backlog(v) {
      var s: Seq8 :| v.queue[s].inUse && !v.queue[s].transmitted;
      assert w.queue[s].inUse && !w.queue[s].transmitted;
    }
    if nr == w.va { assert v.queue == w.queue; }
  }

  lemma MarkUnsentKeeps(w: Tx, a: Seq8, k: nat)
    requires TxInv(w, k)
    ensures TxInv(MarkUnsent(w, a), k)
    ensures InFlight(MarkUnsent(w, a)) ==> InFlight(w)
    ensures a == w.va ==> !InFlight(MarkUnsent(w, a))
  {
    var v := MarkUnsent(w, a);
    forall s: Seq8
      ensures v.queue[s] == w.queue[s].(transmitted := v.queue[s].transmitted)
              && (v.queue[s].transmitted ==> w.queue[s].transmitted)
    {}
    if InFlight(v) {
      var s: Seq8 :| v.queue[s].inUse && v.queue[s].transmitted;
      assert w.queue[s].inUse && w.queue[s].transmitted;
    }
  }

  lemma ClearKeeps(w: Tx, k: nat)
    ensures TxInv(Clear(w), k) && !InFlight(Clear(w)) && !Backlog(Clear(w))
  {
  }

  lemma EnqueueKeeps(w: Tx, data: seq<byte>, k: nat)
    requires TxInv(w, k) && Outstanding(w) < k <= 7 && 0 < |data| <= MAX_INFO_LEN
    ensures TxInv(Enqueue(w, data), k)
    ensures InFlight(Enqueue(w, data)) ==> InFlight(w)
  {
    var v := Enqueue(w, data);
    forall s: Seq8 ensures v.queue[s].inUse <==> Between(w.va, s, v.vs) {}
    if InFlight(v) {
      var s: Seq8 :| v.queue[s].inUse && v.queue[s].transmitted;
      assert w.queue[s].inUse && w.queue[s].transmitted;
    }
  }
}

/** KISS framing: the byte-at-a-time decoder, the encoder that fills an output buffer, and what
    the one makes of the other's output.  Framing bytes as in section 2 of the KISS paper. */
module Kiss {
  import opened Ax25Types

  const FEND: byte := 0xC0
  const FESC: byte := 0xDB
  const TFEND: byte := 0xDC
  const TFESC: byte := 0xDD

  datatype Phase = WaitFend | WaitPortCmd | Receiving

  /** One call of the frame callback. */
  datatype Delivery = Delivery(port: byte, command: byte, data: seq<byte>)

  datatype Decoder = Decoder(phase: Phase, escaped: bool, port: byte, command: byte, buf: seq<byte>)

  // ---- The decoder as a function ------------------------------------------------------------------

  const INITIAL: Decoder := Decoder(WaitFend, false, 0, 0, [])

  function Drop(d: Decoder): Decoder { d.(phase := WaitFend, escaped := false, buf := []) }

  function Store(d: Decoder, b: byte): Decoder {
    if |d.buf| < BUFFER_SIZE then d.(escaped := false, buf := d.buf + [b]) else Drop(d)
  }

  function Step(d: Decoder, b: byte): (Decoder, seq<Delivery>) {
    match d.phase
    case WaitFend => (if b == FEND then d.(phase := WaitPortCmd, escaped := false, buf := []) else d, [])
    case WaitPortCmd => (if b == FEND then d else d.(port := b / 16, command := b % 16, phase := Receiving), [])
    case Receiving =>
      if d.escaped then
        (if b == TFEND then Store(d, FEND) else if b == TFESC then Store(d, FESC) else Drop(d), [])
      else if b == FESC then (d.(escaped := true), [])
      else if b == FEND then (Drop(d), if d.buf == [] then [] else [Delivery(d.port, d.command, d.buf)])
      else (Store(d, b), [])
  }

  function Run(d: Decoder, bytes: seq<byte>): (Decoder, seq<Delivery>)
    decreases |bytes|
  {
    if bytes == [] then (d, [])
    else
      var (d1, out) := Step(d, bytes[0]);
      var (d2, more) := Run(d1, bytes[1..]);
      (d2, out + more)
  }

  /** Between frames there is neither a half-read escape nor a stored byte. */
  predicate Inv(d: Decoder) {
    && |d.buf| <= BUFFER_SIZE && d.port < 16 && d.command < 16
    && (d.phase != Receiving ==> !d.escaped && d.buf == [])
  }

  // ---- The encoder as a function --------------------------------------------------------------------

  function Escape(b: byte): seq<byte> {
    if b == FEND then [FESC, TFEND] else if b == FESC then [FESC, TFESC] else [b]
  }

  function EscapeAll(data: seq<byte>): seq<byte> {
    if data == [] then [] else Escape(data[0]) + EscapeAll(data[1..])
  }

  function PortCmd(port: byte, command: byte): byte { 16 * (port % 16) + command % 16 }

  function Encoded(port: byte, command: byte, data: seq<byte>): (w: seq<byte>)
    ensures |w| >= 2
  {
    [FEND] + Escape(PortCmd(port, command)) + EscapeAll(data) + [FEND]
  }

  /** The byte b as section 2 of the KISS paper spells it, in numbers, at position p. */
  predicate Spelled(w: seq<byte>, p: nat, b: byte) {
    if b == 0xC0 then p + 1 < |w| && w[p] == 0xDB && w[p + 1] == 0xDC
    else if b == 0xDB then p + 1 < |w| && w[p] == 0xDB && w[p + 1] == 0xDD
    else p < |w| && w[p] == b
  }

  /** The encoder escapes the port/command byte, the decoder reads it raw. */
  predicate Transparent(port: byte, command: byte) {
    PortCmd(port, command) != FEND && PortCmd(port, command) != FESC
  }

  /** What the decoder hands up for one encoded frame. */
  function Received(port: byte, command: byte, data: seq<byte>): seq<Delivery> {
    var body := if Transparent(port, command) then data else [Escape(PortCmd(port, command))[1]] + data;
    if 0 < |body| <= BUFFER_SIZE
    then [if Transparent(port, command) then Delivery(port % 16, command % 16, body) else Delivery(13, 11, body)]
    else []
  }

  // ---- Runs ---------------------------------------------------------------------------------------------

  lemma {:induction false} RunAppend(d: Decoder, a: seq<byte>, b: seq<byte>)
    ensures Run(d, a + b) == (Run(Run(d, a).0, b).0, Run(d, a).1 + Run(Run(d, a).0, b).1)
    decreases |a|
  {
    hide Step;
    if a == [] {
      assert a + b == b;
      assert [] + Run(d, b).1 == Run(d, b).1;
    } else {
      var s := Step(d, a[0]);
      assert (a + b)[1..] == a[1..] + b;
      RunAppend(s.0, a[1..], b);
      var x, y := Run(s.0, a[1..]).1, Run(Run(d, a).0, b).1;
      assert s.1 + (x + y) == (s.1 + x) + y;
    }
  }

  lemma RunNothing(d: Decoder)
    ensures Run(d, []) == (d, [])
  {
  }

  lemma RunOne(d: Decoder, b: byte)
    ensures Run(d, [b]) == Step(d, b)
  {
    hide Step;
    assert [b][1..] == [];
    assert Run(Step(d, b).0, []) == (Step(d, b).0, []);
    assert Step(d, b).1 + [] == Step(d, b).1;
  }

  lemma {:induction false} RunKeeps(d: Decoder, bytes: seq<byte>)
    requires Inv(d)
    ensures Inv(Run(d, bytes).0)
    ensures forall i :: 0 <= i < |Run(d, bytes).1| ==> 0 < |Run(d, bytes).1[i].data| <= BUFFER_SIZE
    decreases |bytes|
  {
    if bytes != [] { RunKeeps(Step(d, bytes[0]).0, bytes[1..]); }
  }

  function RunChunks(d: Decoder, chunks: seq<seq<byte>>): (Decoder, seq<Delivery>)
    decreases |chunks|
  {
    if chunks == [] then (d, [])
    else
      var (d1, out) := Run(d, chunks[0]);
      var (d2, more) := RunChunks(d1, chunks[1..]);
      (d2, out + more)
  }

  /** How a stream is cut into calls of `process_bytes` does not matter. */
  lemma {:induction false} ChunkingIrrelevant(d: Decoder, chunks: seq<seq<byte>>)
    ensures RunChunks(d, chunks) == Run(d, Flatten(chunks))
    decreases |chunks|
  {
    if chunks != [] {
      RunAppend(d, chunks[0], Flatten(chunks[1..]));
      ChunkingIrrelevant(Run(d, chunks[0]).0, chunks[1..]);
    }
  }

  /** An encoded frame begins and ends with 0xC0, which is nowhere else in it; the port/command byte comes second. */
  lemma EncodedFrames(port: byte, command: byte, data: seq<byte>)
    ensures var w := Encoded(port, command, data);
            && |w| >= 3 && w[0] == 0xC0 && w[|w| - 1] == 0xC0 && (forall k :: 0 < k < |w| - 1 ==> w[k] != 0xC0)
            && Spelled(w, 1, 16 * (port % 16) + command % 16)
  {
    hide Spelled, EscapeAll;
    var w, c := Encoded(port, command, data), PortCmd(port, command);
    var body := Escape(c) + EscapeAll(data);
    EscapeAllFree(data);
    EscapeLength(c);
    assert w == [FEND] + body + [FEND];
    assert w == [FEND] + Escape(c) + (EscapeAll(data) + [FEND]);
    SpelledAt([FEND], c, EscapeAll(data) + [FEND]);
    forall k | 0 < k < |w| - 1 ensures w[k] != FEND {
      assert w[k] == body[k - 1];
      assert w[k] in Escape(c) || w[k] in EscapeAll(data);
    }
  }

  /** Every data byte is spelled right after the encoding of those before it. */
  lemma EncodedSpells(port: byte, command: byte, data: seq<byte>, i: nat)
    requires i < |data|
    ensures Spelled(Encoded(port, command, data), |Encoded(port, command, data[..i])| - 1, data[i])
  {
    hide Spelled, Escape, EscapeAll;
    var tail := data[i + 1..];
    var head := [FEND] + Escape(PortCmd(port, command)) + EscapeAll(data[..i]);
    assert data == data[..i + 1] + tail;
    EscapeAllAppend(data[..i + 1], tail);
    EscapeNext(data, i);
    assert Encoded(port, command, data) == head + Escape(data[i]) + (EscapeAll(tail) + [FEND]);
    SpelledAt(head, data[i], EscapeAll(tail) + [FEND]);
  }

  lemma SpelledAt(head: seq<byte>, b: byte, rest: seq<byte>)
    ensures Spelled(head + Escape(b) + rest, |head|, b)
  {
    var w, e := head + Escape(b) + rest, Escape(b);
    assert w[|head|] == e[0];
    if |e| == 2 { assert w[|head| + 1] == e[1]; }
  }

  // ---- Decoding what was encoded ----------------------------------------------------------------------------

  lemma {:induction false} EscapeAllAppend(a: seq<byte>, b: seq<byte>)
    ensures EscapeAll(a + b) == EscapeAll(a) + EscapeAll(b)
  {
    if a == [] {
      assert a + b == b;
    } else {
      assert (a + b)[1..] == a[1..] + b;
      EscapeAllAppend(a[1..], b);
    }
  }

  /** Inside an encoded frame FEND cannot occur, and each byte takes at most two. */
  lemma {:induction false} EscapeAllFree(data: seq<byte>)
    ensures FEND !in EscapeAll(data) && |data| <= |EscapeAll(data)| <= 2 * |data|
  {
    if data != [] { EscapeAllFree(data[1..]); }
  }

  lemma {:induction false} Skips(d: Decoder, bytes: seq<byte>)
    requires d.phase == WaitFend && FEND !in bytes
    ensures Run(d, bytes) == (d, [])
    decreases |bytes|
  {
    if bytes != [] {
      assert bytes[0] in bytes && Step(d, bytes[0]) == (d, []);
      Skips(d, bytes[1..]);
      assert [] + Run(d, bytes[1..]).1 == [];
    }
  }

  /** Reading escaped bytes appends them to the frame, or drops the frame and waits when they do not fit. */
  lemma {:induction false} Unescapes(d: Decoder, data: seq<byte>)
    requires Inv(d) && d.phase == Receiving && !d.escaped
    ensures Run(d, EscapeAll(data)) ==
            (if |d.buf| + |data| <= BUFFER_SIZE then d.(buf := d.buf + data) else Drop(d), [])
    decreases |data|
  {
    hide Step, Escape, Run;
    if data == [] {
      assert d.buf + data == d.buf;
      RunNothing(d);
    } else {
      var e := Escape(data[0]);
      RunAppend(d, e, EscapeAll(data[1..]));
      UnescapesOne(d, data[0]);
      var d1 := Store(d, data[0]);
      if |d.buf| < BUFFER_SIZE {
        Unescapes(d1, data[1..]);
        var none: seq<Delivery> := [];
        assert none + none == none;
        assert d1 == d.(buf := d1.buf);
        assert d1.buf + data[1..] == d.buf + data;
      } else {
        EscapeAllFree(data[1..]);
        Skips(d1, EscapeAll(data[1..]));
      }
    }
  }

  lemma UnescapesOne(d: Decoder, b: byte)
    requires d.phase == Receiving && !d.escaped
    ensures Run(d, Escape(b)) == (Store(d, b), [])
  {
    if |Escape(b)| == 1 {
      RunOne(d, b);
    } else {
      var e := Escape(b);
      assert e == [e[0]] + [e[1]];
      RunAppend(d, [e[0]], [e[1]]);
      RunOne(d, e[0]);
      RunOne(d.(escaped := true), e[1]);
    }
  }

  /** A frame whose first data byte has been announced by its port/command byte: it is handed up at the closing FEND,
      and the decoder is between frames again. */
  lemma Closes(d: Decoder, data: seq<byte>)
    requires Inv(d) && d.phase == Receiving && !d.escaped && |d.buf| <= 1
    ensures var (d', out) := Run(d, EscapeAll(data) + [FEND]);
            && Inv(d') && d'.phase != Receiving
            && out == if 0 < |d.buf + data| <= BUFFER_SIZE then [Delivery(d.port, d.command, d.buf + data)] else []
  {
    RunAppend(d, EscapeAll(data), [FEND]);
    Unescapes(d, data);
    RunOne(Run(d, EscapeAll(data)).0, FEND);
  }

  lemma Opens(d: Decoder, port: byte, command: byte)
    requires Inv(d) && d.phase != Receiving
    ensures var c := PortCmd(port, command);
            Run(d, [FEND] + Escape(c)) ==
            (if Transparent(port, command) then Decoder(Receiving, false, port % 16, command % 16, [])
             else Decoder(Receiving, false, 13, 11, [Escape(c)[1]]), [])
  {
    var e := Escape(PortCmd(port, command));
    RunAppend(d, [FEND], e);
    RunOne(d, FEND);
    var d1 := Step(d, FEND).0;
    var d2 := Step(d1, e[0]).0;
    RunOne(d1, e[0]);
    if |e| == 2 {
      assert e == [e[0]] + [e[1]];
      RunAppend(d1, [e[0]], [e[1]]);
      RunOne(d2, e[1]);
      assert Step(d2, e[1]).0.buf == [e[1]];
    } else {
      assert e == [e[0]];
    }
  }

  /** Between frames, an encoded frame is handed up exactly as `Received` says and leaves the decoder between frames. */
  lemma DecodesOne(d: Decoder, port: byte, command: byte, data: seq<byte>)
    requires Inv(d) && d.phase != Receiving
    ensures var (d', out) := Run(d, Encoded(port, command, data));
            Inv(d') && d'.phase != Receiving && out == Received(port, command, data)
  {
    hide Run, Step, Escape, EscapeAll, PortCmd;
    var head := [FEND] + Escape(PortCmd(port, command));
    var tail := EscapeAll(data) + [FEND];
    assert Encoded(port, command, data) == head + tail;
    RunAppend(d, head, tail);
    Opens(d, port, command);
    var d1 := Run(d, head).0;
    Closes(d1, data);
    if Transparent(port, command) { assert d1.buf + data == data; }
  }

  /** An escape byte followed by anything but 0xDC or 0xDD spoils the frame: nothing of it is handed up, whatever stood
      before it, and nothing is stored until the next 0xC0. */
  lemma BrokenEscape(d: Decoder, c: byte, data: seq<byte>, x: byte, rest: seq<byte>)
    requires Inv(d) && d.phase != Receiving && c != 0xC0 && x != 0xDC && x != 0xDD && 0xC0 !in rest
    requires |data| <= BUFFER_SIZE || x != 0xC0
    ensures var (d', out) := Run(d, [0xC0, c] + EscapeAll(data) + [0xDB, x] + rest);
            out == [] && d'.phase == WaitFend && d'.buf == []
  {
    hide Run, Step, Escape, EscapeAll;
    var head, bad := [0xC0, c], [0xDB, x];
    var d1 := Decoder(Receiving, false, c / 16, c % 16, []);
    HeadRead(d, c);
    RunAppend(d, head, EscapeAll(data));
    Unescapes(d1, data);
    var d2 := Run(d1, EscapeAll(data)).0;
    BadEscape(d2, x);
    RunAppend(d, head + EscapeAll(data), bad);
    Skips(Run(d2, bad).0, rest);
    RunAppend(d, head + EscapeAll(data) + bad, rest);
  }

  lemma HeadRead(d: Decoder, c: byte)
    requires Inv(d) && d.phase != Receiving && c != 0xC0
    ensures Run(d, [0xC0, c]) == (Decoder(Receiving, false, c / 16, c % 16, []), [])
  {
    assert [0xC0, c] == [0xC0] + [c];
    RunAppend(d, [0xC0], [c]);
    RunOne(d, 0xC0);
    RunOne(Step(d, 0xC0).0, c);
  }

  lemma BadEscape(d: Decoder, x: byte)
    requires Inv(d) && !d.escaped && x != 0xDC && x != 0xDD && (d.phase == Receiving || d.phase == WaitFend)
    requires d.phase == WaitFend ==> x != 0xC0
    ensures var (d', out) := Run(d, [0xDB, x]); out == [] && d'.phase == WaitFend && d'.buf == []
  {
    assert [0xDB, x] == [0xDB] + [x];
    RunAppend(d, [0xDB], [x]);
    RunOne(d, 0xDB);
    RunOne(Step(d, 0xDB).0, x);
  }

  /** Exactly when a frame comes through as it was sent. */
  lemma ExactDelivery(port: byte, command: byte, data: seq<byte>)
    requires port < 16 && command < 16
    ensures Run(INITIAL, Encoded(port, command, data)).1 == [Delivery(port, command, data)] <==>
            0 < |data| <= 338 && 16 * port + command != 0xC0 && 16 * port + command != 0xDB
  {
    hide Run, Encoded, Escape;
    DecodesOne(INITIAL, port, command, data);
    if !Transparent(port, command) && |Received(port, command, data)| > 0 {
      assert |Received(port, command, data)[0].data| == |data| + 1;
    }
  }

  /** The pairs (12, 0) and (13, 11) come out as (13, 11) with a spurious first byte, or not at all if that does not
      fit. */
  lemma PortCmdNotTransparent(data: seq<byte>)
    ensures Run(INITIAL, Encoded(12, 0, data)).1 ==
            if |data| < BUFFER_SIZE then [Delivery(13, 11, [TFEND] + data)] else []
    ensures Run(INITIAL, Encoded(13, 11, data)).1 ==
            if |data| < BUFFER_SIZE then [Delivery(13, 11, [TFESC] + data)] else []
    ensures forall p: byte, c: byte :: p < 16 && c < 16 ==> (!Transparent(p, c) <==> (p, c) in {(12, 0), (13, 11)})
  {
    hide Run, Encoded;
    DecodesOne(INITIAL, 12, 0, data);
    DecodesOne(INITIAL, 13, 11, data);
    assert PortCmd(12, 0) == FEND && PortCmd(13, 11) == FESC;
    forall p: byte, c: byte | p < 16 && c < 16 ensures !Transparent(p, c) <==> (p, c) in {(12, 0), (13, 11)} {}
  }

  // ---- Self-stabilisation -----------------------------------------------------------------------------------------

  /** Whatever state garbage has left, one encoded frame of any kind brings the decoder between frames. */
  lemma Resynchronises(d: Decoder, port: byte, command: byte, data: seq<byte>)
    requires Inv(d)
    ensures var d' := Run(d, Encoded(port, command, data)).0; Inv(d') && d'.phase != Receiving
  {
    if d.phase != Receiving {
      DecodesOne(d, port, command, data);
    } else {
      var c := PortCmd(port, command);
      var body := Escape(c) + EscapeAll(data);
      assert Encoded(port, command, data) == [FEND] + (body + [FEND]);
      RunAppend(d, [FEND], body + [FEND]);
      RunOne(d, FEND);
      var d1 := Step(d, FEND).0;
      RunAppend(d1, body, [FEND]);
      EscapeAllFree(data);
      Skips(d1, body);
      RunOne(d1, FEND);
    }
  }

  datatype Message = Message(port: byte, command: byte, data: seq<byte>)

  function Stream(ms: seq<Message>): seq<byte> {
    if ms == [] then [] else Encoded(ms[0].port, ms[0].command, ms[0].data) + Stream(ms[1..])
  }

  /** The messages that come through unchanged. */
  predicate Clean(m: Message) {
    m.port < 16 && m.command < 16 && Transparent(m.port, m.command) && 0 < |m.data| <= BUFFER_SIZE
  }

  function Deliveries(ms: seq<Message>): seq<Delivery> {
    seq(|ms|, i requires 0 <= i < |ms| => Delivery(ms[i].port, ms[i].command, ms[i].data))
  }

  lemma {:induction false} DecodesStream(d: Decoder, ms: seq<Message>)
    requires Inv(d) && d.phase != Receiving
    requires forall i :: 0 <= i < |ms| ==> Clean(ms[i])
    ensures var (d', out) := Run(d, Stream(ms)); Inv(d') && d'.phase != Receiving && out == Deliveries(ms)
    decreases |ms|
  {
    hide Encoded, Transparent;
    if ms != [] {
      var m := ms[0];
      RunAppend(d, Encoded(m.port, m.command, m.data), Stream(ms[1..]));
      DecodesOne(d, m.port, m.command, m.data);
      DecodesStream(Run(d, Encoded(m.port, m.command, m.data)).0, ms[1..]);
      assert Deliveries(ms) == [Delivery(m.port, m.command, m.data)] + Deliveries(ms[1..]);
    }
  }

  /** After any garbage, from any reachable state and in any chunks, at most the first whole frame is lost or mangled:
      every clean message after it is delivered exactly, in order, and nothing else is. */
  lemma SelfStabilises(d: Decoder, garbage: seq<byte>, first: Message, ms: seq<Message>, chunks: seq<seq<byte>>)
    requires Inv(d)
    requires forall i :: 0 <= i < |ms| ==> Clean(ms[i])
    requires Flatten(chunks) == garbage + Stream([first]) + Stream(ms)
    ensures RunChunks(d, chunks).1 == Run(d, garbage + Stream([first])).1 + Deliveries(ms)
  {
    ChunkingIrrelevant(d, chunks);
    RunAppend(d, garbage + Stream([first]), Stream(ms));
    RunAppend(d, garbage, Stream([first]));
    RunKeeps(d, garbage);
    assert Stream([first]) == Encoded(first.port, first.command, first.data);
    Resynchronises(Run(d, garbage).0, first.port, first.command, first.data);
    DecodesStream(Run(d, garbage + Stream([first])).0, ms);
  }

  // ---- The decoder object ----------------------------------------------------------------------------------------

  class KissDecoder {
    var phase: Phase
    var escaped: bool
    var port: byte
    var command: byte
    const frameBuf: array<byte>
    var frameLen: nat

    /** The calls of the frame callback so far. */
    var delivered: seq<Delivery>

    ghost predicate Valid()
      reads this, frameBuf
    {
      frameBuf.Length == BUFFER_SIZE && frameLen <= BUFFER_SIZE && Inv(Contents())
    }

    ghost function Contents(): Decoder
      requires frameLen <= frameBuf.Length
      reads this, frameBuf
    {
      Decoder(phase, escaped, port, command, frameBuf[..frameLen])
    }

    constructor ()
      ensures Valid() && fresh(frameBuf) && delivered == []
      ensures Contents() == INITIAL
    {
      frameBuf := new byte[BUFFER_SIZE](_ => 0);
      phase, escaped, port, command, frameLen := WaitFend, false, 0, 0, 0;
      delivered := [];
    }

    method StoreByte(b: byte)
      requires Valid() && phase == Receiving
      modifies this`phase, this`escaped, this`frameLen, frameBuf
      ensures Valid() && Contents() == Store(old(Contents()), b)
    {
      escaped := false;
      if frameLen < BUFFER_SIZE {
        frameBuf[frameLen] := b;
        frameLen := frameLen + 1;
      } else {
        frameLen := 0;
        phase := WaitFend;
      }
    }

    /** `ax25_kiss_decoder_process_byte`. */
    method ProcessByte(b: byte)
      requires Valid()
      modifies this, frameBuf
      ensures Valid() && Contents() == Step(old(Contents()), b).0
      ensures delivered == old(delivered) + Step(old(Contents()), b).1
    {
      match phase
      case WaitFend =>
        if b == FEND {
          phase := WaitPortCmd;
          escaped := false;
          frameLen := 0;
        }
      case WaitPortCmd =>
        if b != FEND {
          port := b / 16;
          command := b % 16;
          phase := Receiving;
        }
      case Receiving =>
        if escaped {
          if b == TFEND { StoreByte(FEND); }
          else if b == TFESC { StoreByte(FESC); }
          else {
            escaped := false;
            frameLen := 0;
            phase := WaitFend;
          }
        } else if b == FESC {
          escaped := true;
        } else if b == FEND {
          if frameLen > 0 { delivered := delivered + [Delivery(port, command, frameBuf[..frameLen])]; }
          frameLen := 0;
          phase := WaitFend;
        } else {
          StoreByte(b);
        }
    }

    /** `ax25_kiss_decoder_process_bytes`. */
    method ProcessBytes(data: seq<byte>)
      requires Valid()
      modifies this, frameBuf
      ensures Valid() && Contents() == Run(old(Contents()), data).0
      ensures delivered == old(delivered) + Run(old(Contents()), data).1
    {
      ghost var d := Contents();
      for i := 0 to |data|
        invariant Valid() && Contents() == Run(d, data[..i]).0
        invariant delivered == old(delivered) + Run(d, data[..i]).1
      {
        assert data[..i + 1] == data[..i] + [data[i]];
        RunAppend(d, data[..i], [data[i]]);
        RunOne(Contents(), data[i]);
        ProcessByte(data[i]);
      }
      assert data[..|data|] == data;
    }

    /** `ax25_kiss_decoder_reset`. */
    method Reset()
      requires Valid()
      modifies this
      ensures Valid() && Contents() == INITIAL && delivered == old(delivered)
    {
      phase, escaped, frameLen, port, command := WaitFend, false, 0, 0, 0;
    }
  }

  // ---- The encoder --------------------------------------------------------------------------------------------------

  /** `kiss_add_escaped_byte`: the new position, or 0 when the byte does not fit. */
  method AddEscaped(b: byte, out: array<byte>, pos: nat) returns (next: nat)
    requires 0 < pos <= out.Length
    modifies out
    ensures out[..pos] == old(out[..pos])
    ensures next == if pos + |Escape(b)| <= out.Length then pos + |Escape(b)| else 0
    ensures next > 0 ==> out[..next] == old(out[..pos]) + Escape(b) && Spelled(out[..next], pos, b)
  {
    if b == FEND {
      if pos + 2 > out.Length { return 0; }
      out[pos], out[pos + 1] := FESC, TFEND;
      next := pos + 2;
    } else if b == FESC {
      if pos + 2 > out.Length { return 0; }
      out[pos], out[pos + 1] := FESC, TFESC;
      next := pos + 2;
    } else {
      if pos + 1 > out.Length { return 0; }
      out[pos] := b;
      next := pos + 1;
    }
  }

  lemma EscapeNext(data: seq<byte>, i: nat)
    requires i < |data|
    ensures EscapeAll(data[..i + 1]) == EscapeAll(data[..i]) + Escape(data[i])
    ensures |EscapeAll(data[..i + 1])| <= |EscapeAll(data)|
  {
    assert data[..i + 1] == data[..i] + [data[i]];
    EscapeAllAppend(data[..i], [data[i]]);
    assert EscapeAll([data[i]]) == Escape(data[i]) + EscapeAll([]);
    assert data == data[..i + 1] + data[i + 1..];
    EscapeAllAppend(data[..i + 1], data[i + 1..]);
  }

  /** `ax25_kiss_encode`: the encoded frame and its length, or 0 exactly when it does not fit.  Every data byte is
      spelled right after the encoding of those before it. */
  method Encode(port: byte, command: byte, data: seq<byte>, out: array<byte>) returns (n: nat)
    modifies out
    ensures n == if |Encoded(port, command, data)| <= out.Length then |Encoded(port, command, data)| else 0
    ensures n > 0 ==> out[..n] == Encoded(port, command, data)
    ensures n > 0 ==> out[0] == 0xC0 && out[n - 1] == 0xC0 && Spelled(out[..n], 1, 16 * (port % 16) + command % 16)
    ensures n > 0 ==> forall i :: 0 <= i < |data| ==>
              Spelled(out[..n], |Encoded(port, command, data[..i])| - 1, data[i])
    ensures out.Length >= 2 * |data| + 4 ==> n > 0
  {
    hide Escape, EscapeAll, Spelled, Encoded;
    var head := PortCmd(port, command);
    ghost var opening := [FEND] + Escape(head);
    EscapeAllFree(data);
    assert 1 <= |Escape(head)| <= 2 by { EscapeLength(head); }
    EncodedIs(port, command, data);
    if out.Length == 0 { return 0; }
    out[0] := FEND;
    n := AddEscaped(head, out, 1);
    if n == 0 { return 0; }
    EscapeNone(data[..0]);
    for i := 0 to |data|
      invariant 0 < n <= out.Length && out[..n] == opening + EscapeAll(data[..i])
    {
      EscapeNext(data, i);
      EscapeLength(data[i]);
      n := AddEscaped(data[i], out, n);
      if n == 0 { return 0; }
    }
    assert data[..|data|] == data;
    if n + 1 > out.Length { return 0; }
    out[n] := FEND;
    n := n + 1;
    ghost var w := out[..n];
    assert w == Encoded(port, command, data);
    EncodedFrames(port, command, data);
    assert out[0] == w[0] && out[n - 1] == w[n - 1];
    forall i | 0 <= i < |data| ensures Spelled(out[..n], |Encoded(port, command, data[..i])| - 1, data[i]) {
      EncodedSpells(port, command, data, i);
    }
  }

  lemma EncodedIs(port: byte, command: byte, data: seq<byte>)
    ensures Encoded(port, command, data) == [FEND] + Escape(PortCmd(port, command)) + EscapeAll(data) + [FEND]
    ensures FEND == 0xC0 && PortCmd(port, command) == 16 * (port % 16) + command % 16
  {
  }

  lemma EscapeLength(b: byte)
    ensures 1 <= |Escape(b)| <= 2
  {
  }

  lemma EscapeNone(none: seq<byte>)
    requires none == []
    ensures EscapeAll(none) == []
  {
  }
}

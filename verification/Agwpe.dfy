/** The AGWPE TCP protocol: the stream decoder, which must stay in step with the sender whatever length a frame
    declares, and the one-shot encoder and decoder. */
module Agwpe {
  import opened Ax25Types

  const HEADER_SIZE: nat := 36
  const CALLSIGN_LEN: nat := 10
  const MAX_DATA_LEN: nat := 512

  /** The fields of a frame other than the reserved bytes; the length field is the length of `data`. */
  datatype AgwFrame = AgwFrame(port: byte, kind: byte, pid: byte, from: seq<byte>, to: seq<byte>, user: nat,
      data: seq<byte>)

  datatype Decoded = Decoded(frame: AgwFrame) | BadArg | BadSize | Overrun

  // ---- Little-endian words ---------------------------------------------------------------------------

  function ReadLE32(b: seq<byte>): (n: nat)
    requires |b| == 4
    ensures n < 0x1_0000_0000
  {
    var b0: nat, b1: nat, b2: nat, b3: nat := b[0], b[1], b[2], b[3];
    b0 + 0x100 * (b1 + 0x100 * (b2 + 0x100 * b3))
  }

  function WriteLE32(n: nat): (b: seq<byte>)
    requires n < 0x1_0000_0000
    ensures |b| == 4
  {
    [n % 0x100, n / 0x100 % 0x100, n / 0x100 / 0x100 % 0x100, n / 0x100 / 0x100 / 0x100]
  }

  lemma WordRoundTrip(n: nat)
    requires n < 0x1_0000_0000
    ensures ReadLE32(WriteLE32(n)) == n
  {
  }

  // ---- A frame on the wire -----------------------------------------------------------------------------

  function DeclaredLength(w: seq<byte>): nat
    requires |w| >= HEADER_SIZE
  {
    ReadLE32(w[28..32])
  }

  /** A complete frame: the header and exactly the declared number of data bytes. */
  predicate Whole(w: seq<byte>) { |w| >= HEADER_SIZE && |w| == HEADER_SIZE + DeclaredLength(w) }

  function Clip(data: seq<byte>): seq<byte> { if |data| > MAX_DATA_LEN then data[..MAX_DATA_LEN] else data }

  function FrameOf(header: seq<byte>, data: seq<byte>): AgwFrame
    requires |header| == HEADER_SIZE
  {
    AgwFrame(header[0], header[4], header[6], header[8..18], header[18..28], ReadLE32(header[32..36]), data)
  }

  // ---- The stream decoder as a function ------------------------------------------------------------------

  /** Either a partial header, or a header, the number of data bytes consumed and those that were kept. */
  datatype Decoder = InHeader(got: seq<byte>) | InData(header: seq<byte>, consumed: nat, kept: seq<byte>)

  const INITIAL: Decoder := InHeader([])

  predicate Inv(d: Decoder) {
    match d
    case InHeader(got) => |got| < HEADER_SIZE
    case InData(h, n, kept) =>
      |h| == HEADER_SIZE && n < DeclaredLength(h) && |kept| == if n < MAX_DATA_LEN then n else MAX_DATA_LEN
  }

  function Step(d: Decoder, b: byte): (r: (Decoder, seq<AgwFrame>))
    requires Inv(d)
    ensures Inv(r.0)
  {
    match d
    case InHeader(got) =>
      var h := got + [b];
      if |h| < HEADER_SIZE then (InHeader(h), [])
      else if DeclaredLength(h) > 0 then (InData(h, 0, []), [])
      else (INITIAL, [FrameOf(h, [])])
    case InData(h, n, kept) =>
      var kept' := if n < MAX_DATA_LEN then kept + [b] else kept;
      if n + 1 < DeclaredLength(h) then (InData(h, n + 1, kept'), []) else (INITIAL, [FrameOf(h, kept')])
  }

  function Run(d: Decoder, bytes: seq<byte>): (r: (Decoder, seq<AgwFrame>))
    requires Inv(d)
    ensures Inv(r.0)
    decreases |bytes|
  {
    if bytes == [] then (d, [])
    else
      var (d1, out) := Step(d, bytes[0]);
      var (d2, more) := Run(d1, bytes[1..]);
      (d2, out + more)
  }

  lemma {:induction false} RunAppend(d: Decoder, a: seq<byte>, b: seq<byte>)
    requires Inv(d)
    ensures Run(d, a + b).0 == Run(Run(d, a).0, b).0
    ensures Run(d, a + b).1 == Run(d, a).1 + Run(Run(d, a).0, b).1
    decreases |a|
  {
    hide Step, Inv;
    if a == [] {
      assert a + b == b;
    } else {
      assert (a + b)[1..] == a[1..] + b;
      RunAppend(Step(d, a[0]).0, a[1..], b);
    }
  }

  lemma RunOne(d: Decoder, b: byte)
    requires Inv(d)
    ensures Run(d, [b]).0 == Step(d, b).0 && Run(d, [b]).1 == Step(d, b).1
  {
    hide Step, Inv;
    assert [b][1..] == [];
    assert Run(Step(d, b).0, []) == (Step(d, b).0, []);
  }

  function RunChunks(d: Decoder, chunks: seq<seq<byte>>): (Decoder, seq<AgwFrame>)
    requires Inv(d)
    decreases |chunks|
  {
    if chunks == [] then (d, [])
    else
      var (d1, out) := Run(d, chunks[0]);
      var (d2, more) := RunChunks(d1, chunks[1..]);
      (d2, out + more)
  }

  lemma {:induction false} ChunkingIrrelevant(d: Decoder, chunks: seq<seq<byte>>)
    requires Inv(d)
    ensures RunChunks(d, chunks).0 == Run(d, Flatten(chunks)).0
    ensures RunChunks(d, chunks).1 == Run(d, Flatten(chunks)).1
    decreases |chunks|
  {
    hide Inv;
    if chunks != [] {
      RunAppend(d, chunks[0], Flatten(chunks[1..]));
      ChunkingIrrelevant(Run(d, chunks[0]).0, chunks[1..]);
    }
  }

  // ---- In step with the sender ------------------------------------------------------------------------------

  /** Until the header is complete the decoder only collects it. */
  lemma {:induction false} CollectsHeader(h: seq<byte>, k: nat)
    requires k <= |h| && k < HEADER_SIZE
    ensures Run(INITIAL, h[..k]) == (InHeader(h[..k]), [])
  {
    if k > 0 {
      CollectsHeader(h, k - 1);
      assert h[..k] == h[..k - 1] + [h[k - 1]];
      RunAppend(INITIAL, h[..k - 1], [h[k - 1]]);
      RunOne(InHeader(h[..k - 1]), h[k - 1]);
    } else {
      assert h[..k] == [];
    }
  }

  /** Inside the data the decoder counts every byte and keeps the first 512. */
  lemma {:induction false} CollectsData(h: seq<byte>, data: seq<byte>, k: nat)
    requires |h| == HEADER_SIZE && k <= |data| && k < DeclaredLength(h)
    ensures Run(InData(h, 0, []), data[..k]).0 == InData(h, k, Clip(data[..k]))
            && Run(InData(h, 0, []), data[..k]).1 == []
    decreases k
  {
    hide ReadLE32;
    if k > 0 {
      CollectsData(h, data, k - 1);
      assert data[..k] == data[..k - 1] + [data[k - 1]];
      RunAppend(InData(h, 0, []), data[..k - 1], [data[k - 1]]);
      RunOne(InData(h, k - 1, Clip(data[..k - 1])), data[k - 1]);
    } else {
      assert data[..k] == [];
    }
  }

  /** A proper prefix of a frame calls nothing back. */
  lemma NothingEarly(w: seq<byte>, k: nat)
    requires Whole(w) && k < |w|
    ensures Run(INITIAL, w[..k]).1 == []
    ensures k >= HEADER_SIZE ==> Run(INITIAL, w[..k]).0 == InData(w[..36], k - 36, Clip(w[36..k]))
  {
    hide ReadLE32;
    if k < HEADER_SIZE {
      CollectsHeader(w, k);
    } else {
      var h := w[..36];
      CollectsHeader(w, 35);
      assert h == w[..35] + [w[35]] && h[28..32] == w[28..32];
      RunAppend(INITIAL, w[..35], [w[35]]);
      RunOne(InHeader(w[..35]), w[35]);
      CollectsData(h, w[36..], k - 36);
      assert w[..k] == h + w[36..][..k - 36] && w[36..][..k - 36] == w[36..k];
      RunAppend(INITIAL, h, w[36..][..k - 36]);
    }
  }

  /** A whole frame of any declared length is called back once, at its last byte, with the first 512 data bytes, and
      leaves the decoder as it was at the start. */
  lemma DecodesOne(w: seq<byte>)
    requires Whole(w)
    ensures Run(INITIAL, w).0 == INITIAL && Run(INITIAL, w).1 == [FrameOf(w[..36], Clip(w[36..]))]
    ensures Clip(w[36..]) == w[36..if |w| > 548 then 548 else |w|]
  {
    hide ReadLE32, Run, FrameOf;
    var n := |w| - 1;
    assert w == w[..n] + [w[n]];
    RunAppend(INITIAL, w[..n], [w[n]]);
    RunOne(Run(INITIAL, w[..n]).0, w[n]);
    NothingEarly(w, n);
    assert w[..36][28..32] == w[28..32];
    if n < HEADER_SIZE {
      CollectsHeader(w, n);
      assert w[..n] + [w[n]] == w[..36] && w[36..] == [];
    } else {
      assert w[36..n] + [w[n]] == w[36..];
      assert n - 36 < MAX_DATA_LEN ==> Clip(w[36..n]) + [w[n]] == Clip(w[36..]);
      assert n - 36 >= MAX_DATA_LEN ==> Clip(w[36..n]) == Clip(w[36..]);
    }
  }

  function Frames(ws: seq<seq<byte>>): (r: seq<AgwFrame>)
    requires forall i :: 0 <= i < |ws| ==> Whole(ws[i])
    ensures |r| == |ws|
  {
    seq(|ws|, i requires 0 <= i < |ws| && Whole(ws[i]) => FrameOf(ws[i][..36], Clip(ws[i][36..])))
  }

  lemma {:induction false} DecodesAll(ws: seq<seq<byte>>)
    requires forall i :: 0 <= i < |ws| ==> Whole(ws[i])
    ensures Run(INITIAL, Flatten(ws)).0 == INITIAL && Run(INITIAL, Flatten(ws)).1 == Frames(ws)
    decreases |ws|
  {
    hide Whole;
    if ws != [] {
      DecodesOne(ws[0]);
      RunAppend(INITIAL, ws[0], Flatten(ws[1..]));
      DecodesAll(ws[1..]);
      assert Frames(ws) == [Frames(ws)[0]] + Frames(ws[1..]);
    }
  }

  /** Any number of whole frames, cut into any chunks: one call back per frame, in order, each the frame that the
      one-shot decoder finds in those bytes, and the decoder ends where it started. */
  lemma StaysInSync(ws: seq<seq<byte>>, chunks: seq<seq<byte>>)
    requires forall i :: 0 <= i < |ws| ==> Whole(ws[i])
    requires Flatten(chunks) == Flatten(ws)
    ensures RunChunks(INITIAL, chunks).0 == INITIAL && |RunChunks(INITIAL, chunks).1| == |ws|
    ensures forall i :: 0 <= i < |ws| ==> DecodeOnce(ws[i]) == Decoded(RunChunks(INITIAL, chunks).1[i])
  {
    ChunkingIrrelevant(INITIAL, chunks);
    DecodesAll(ws);
    forall i | 0 <= i < |ws| ensures DecodeOnce(ws[i]) == Decoded(Frames(ws)[i]) { OneShotAgrees(ws[i]); }
  }

  // ---- The one-shot decoder and the encoder ---------------------------------------------------------------------

  function Kept(n: nat): nat { if n > MAX_DATA_LEN then MAX_DATA_LEN else n }

  /** `agwpe_frame_decode`.  The source adds the header size to the declared length in 32 bits; `Overrun` is the case in
      which the sum wraps and the copy goes beyond the given bytes. */
  function DecodeOnce(data: seq<byte>): Decoded {
    if |data| < HEADER_SIZE then BadArg
    else
      var n := DeclaredLength(data);
      if n > 0 && |data| < (HEADER_SIZE + n) % 0x1_0000_0000 then BadSize
      else if |data| < HEADER_SIZE + Kept(n) then Overrun
      else Decoded(FrameOf(data[..36], data[36..36 + Kept(n)]))
  }

  /** The 32-bit sum is the true one. */
  predicate Unwrapped(data: seq<byte>)
    requires |data| >= HEADER_SIZE
  {
    HEADER_SIZE + DeclaredLength(data) < 0x1_0000_0000
  }

  /** Exactly when the one-shot decoder stays inside the bytes it is given. */
  lemma StaysInside(data: seq<byte>)
    requires |data| >= HEADER_SIZE
    ensures DecodeOnce(data) != Overrun <==> Unwrapped(data) || |data| >= HEADER_SIZE + MAX_DATA_LEN
    ensures Unwrapped(data) ==> (DecodeOnce(data).Decoded? <==> |data| >= HEADER_SIZE + DeclaredLength(data))
  {
  }

  /** The smallest failing input: a header alone that declares 0xFFFFFFDC bytes. */
  lemma HeaderOverruns(from: seq<byte>, to: seq<byte>)
    requires |from| == CALLSIGN_LEN && |to| == CALLSIGN_LEN
    ensures DecodeOnce([0, 0, 0, 0, 68, 0, 0xF0, 0] + from + to + [0xDC, 0xFF, 0xFF, 0xFF] + [0, 0, 0, 0]) == Overrun
  {
    var w := [0, 0, 0, 0, 68, 0, 0xF0, 0] + from + to + [0xDC, 0xFF, 0xFF, 0xFF] + [0, 0, 0, 0];
    assert w[28..32] == [0xDC, 0xFF, 0xFF, 0xFF];
  }

  lemma OneShotAgrees(w: seq<byte>)
    requires Whole(w)
    ensures DecodeOnce(w) == Decoded(FrameOf(w[..36], Clip(w[36..])))
  {
    hide ReadLE32, FrameOf;
    assert w[36..36 + Kept(DeclaredLength(w))] == Clip(w[36..]);
  }

  predicate Encodable(f: AgwFrame) {
    |f.from| == CALLSIGN_LEN && |f.to| == CALLSIGN_LEN && f.user < 0x1_0000_0000 && |f.data| <= MAX_DATA_LEN
  }

  function Encoded(f: AgwFrame): (w: seq<byte>)
    requires Encodable(f)
    ensures |w| == HEADER_SIZE + |f.data|
  {
    [f.port, 0, 0, 0, f.kind, 0, f.pid, 0] + f.from + f.to + WriteLE32(|f.data|) + WriteLE32(f.user) + f.data
  }

  /** `agwpe_frame_encode`: the total length, or 0 exactly when the output is too small. */
  method Encode(f: AgwFrame, out: array<byte>) returns (n: nat)
    requires Encodable(f)
    modifies out
    ensures n == if |Encoded(f)| <= out.Length then |Encoded(f)| else 0
    ensures n > 0 ==> out[..n] == Encoded(f)
  {
    var total := HEADER_SIZE + |f.data|;
    if out.Length < total { return 0; }
    forall i | 0 <= i < HEADER_SIZE { out[i] := 0; }
    PutHeader(f, out);
    ghost var head := out[..HEADER_SIZE];
    forall i | 0 <= i < |f.data| { out[HEADER_SIZE + i] := f.data[i]; }
    assert out[..HEADER_SIZE] == head && out[HEADER_SIZE..total] == f.data;
    assert out[..total] == out[..HEADER_SIZE] + out[HEADER_SIZE..total];
    n := total;
  }

  method PutHeader(f: AgwFrame, out: array<byte>)
    requires Encodable(f) && out.Length >= HEADER_SIZE && forall i :: 0 <= i < HEADER_SIZE ==> out[i] == 0
    modifies out
    ensures out[..HEADER_SIZE] ==
            [f.port, 0, 0, 0, f.kind, 0, f.pid, 0] + f.from + f.to + WriteLE32(|f.data|) + WriteLE32(f.user)
  {
    hide WriteLE32;
    out[0], out[4], out[6] := f.port, f.kind, f.pid;
    assert out[..8] == [f.port, 0, 0, 0, f.kind, 0, f.pid, 0];
    Put(out, 8, f.from);
    Put(out, 18, f.to);
    Put(out, 28, WriteLE32(|f.data|));
    Put(out, 32, WriteLE32(f.user));
  }

  /** `memcpy` to an offset, seen from the bytes before it. */
  method Put(out: array<byte>, at: nat, bytes: seq<byte>)
    requires at + |bytes| <= out.Length
    modifies out
    ensures out[..at + |bytes|] == old(out[..at]) + bytes
  {
    forall i | 0 <= i < |bytes| { out[at + i] := bytes[i]; }
  }

  /** Where the fields of an encoded frame are, in numbers: reserved bytes are zero and both words are little-endian. */
  lemma EncodedLayout(f: AgwFrame)
    requires Encodable(f)
    ensures var w := Encoded(f);
            && |w| == 36 + |f.data| && w[0] == f.port && w[4] == f.kind && w[6] == f.pid
            && (forall i :: i in {1, 2, 3, 5, 7} ==> w[i] == 0)
            && w[8..18] == f.from && w[18..28] == f.to && w[36..] == f.data
            && w[28..32] == Bytes(|f.data|) && w[32..36] == Bytes(f.user)
  {
    hide WriteLE32, Encoded;
    EncodedParts(f);
    var w := Encoded(f);
    LittleEndian(|f.data|);
    LittleEndian(f.user);
    Reserved(f);
  }

  /** The four bytes of a word, the least significant first. */
  function Bytes(n: nat): seq<byte>
    requires n < 0x1_0000_0000
  {
    [n % 256, n / 256 % 256, n / 65536 % 256, n / 16777216]
  }

  lemma LittleEndian(n: nat)
    requires n < 0x1_0000_0000
    ensures WriteLE32(n) == Bytes(n)
  {
    assert n / 0x100 / 0x100 == n / 65536 && n / 65536 / 0x100 == n / 16777216;
  }

  lemma Reserved(f: AgwFrame)
    requires Encodable(f)
    ensures forall i :: i in {1, 2, 3, 5, 7} ==> Encoded(f)[i] == 0
  {
    hide WriteLE32;
  }

  lemma EncodedParts(f: AgwFrame)
    requires Encodable(f)
    ensures var w := Encoded(f);
            && w[0] == f.port && w[4] == f.kind && w[6] == f.pid && w[8..18] == f.from && w[18..28] == f.to
            && w[28..32] == WriteLE32(|f.data|) && w[32..36] == WriteLE32(f.user) && w[36..] == f.data
  {
  }

  /** What is encoded is a whole frame, and both decoders give it back. */
  lemma RoundTrip(f: AgwFrame)
    requires Encodable(f)
    ensures Whole(Encoded(f)) && DecodeOnce(Encoded(f)) == Decoded(f)
    ensures Run(INITIAL, Encoded(f)).0 == INITIAL && Run(INITIAL, Encoded(f)).1 == [f]
  {
    hide Run, Encoded, ReadLE32, WriteLE32, DecodeOnce;
    var w := Encoded(f);
    EncodedParts(f);
    WordRoundTrip(|f.data|);
    WordRoundTrip(f.user);
    assert w[..36][8..18] == w[8..18] && w[..36][18..28] == w[18..28] && w[..36][32..36] == w[32..36];
    OneShotAgrees(w);
    DecodesOne(w);
  }

  // ---- The decoder object -------------------------------------------------------------------------------------------

  datatype Phase = Header | Data

  type Word = n: nat | n < 0x1_0000_0000

  function Clamped(n: Word): Word { if n > MAX_DATA_LEN then MAX_DATA_LEN else n }

  class StreamDecoder {
    var phase: Phase
    /** The frame being assembled, as the bytes of the source's packed structure. */
    const frame: array<byte>
    var received: nat
    var wireLen: Word

    /** The calls of the frame callback so far. */
    var delivered: seq<AgwFrame>

    ghost predicate Valid()
      reads this, frame
    {
      && frame.Length == HEADER_SIZE + MAX_DATA_LEN && (phase == Header ==> received < HEADER_SIZE) && Inv(Contents())
      && (phase == Data ==> frame[28..32] == WriteLE32(Clamped(wireLen)))
    }

    /** The header as received: its length field is by now the clamped one, and `wireLen` keeps the declared one. */
    ghost function Contents(): Decoder
      requires frame.Length == HEADER_SIZE + MAX_DATA_LEN && (phase == Header ==> received < HEADER_SIZE)
      reads this, frame
    {
      if phase == Header then InHeader(frame[..received])
      else InData(frame[..28] + WriteLE32(wireLen) + frame[32..36], received,
                  frame[36..36 + if received < MAX_DATA_LEN then received else MAX_DATA_LEN])
    }

    constructor ()
      ensures Valid() && fresh(frame) && delivered == [] && Contents() == INITIAL
    {
      frame := new byte[HEADER_SIZE + MAX_DATA_LEN](_ => 0);
      phase, received, wireLen, delivered := Header, 0, 0, [];
    }

    /** `agwpe_decoder_reset`. */
    method Reset()
      requires frame.Length == HEADER_SIZE + MAX_DATA_LEN
      modifies this`phase, this`received, frame
      ensures Valid() && Contents() == INITIAL
    {
      phase, received := Header, 0;
      forall i | 0 <= i < frame.Length { frame[i] := 0; }
    }

    /** The callback: its receiver reads the fields and as many data bytes as the length field says. */
    method Deliver()
      requires frame.Length == HEADER_SIZE + MAX_DATA_LEN && ReadLE32(frame[28..32]) <= MAX_DATA_LEN
      modifies this`delivered
      ensures delivered == old(delivered) + [FrameOf(frame[..36], frame[36..36 + ReadLE32(frame[28..32])])]
    {
      hide ReadLE32;
      var n := ReadLE32(frame[28..32]);
      delivered := delivered +
                   [AgwFrame(frame[0], frame[4], frame[6], frame[8..18], frame[18..28], ReadLE32(frame[32..36]),
                             frame[36..36 + n])];
      assert frame[..36][8..18] == frame[8..18] && frame[..36][18..28] == frame[18..28]
             && frame[..36][32..36] == frame[32..36];
    }

    /** `agwpe_decoder_process_byte`. */
    method ProcessByte(b: byte)
      requires Valid()
      modifies this, frame
      ensures Valid() && Contents() == Step(old(Contents()), b).0
      ensures delivered == old(delivered) + Step(old(Contents()), b).1
    {
      if phase == Header { HeaderByte(b); } else { DataByte(b); }
    }

    method HeaderByte(b: byte)
      requires Valid() && phase == Header
      modifies this, frame
      ensures Valid() && Contents() == Step(old(Contents()), b).0
      ensures delivered == old(delivered) + Step(old(Contents()), b).1
    {
      hide ReadLE32, WriteLE32;
      ghost var h := frame[..received] + [b];
      frame[received] := b;
      received := received + 1;
      assert frame[..received] == h;
      if received >= HEADER_SIZE {
        assert frame[28..32] == h[28..32];
        wireLen := ReadLE32(frame[28..32]);
        var len := WriteLE32(Clamped(wireLen));
        forall i | 0 <= i < 4 { frame[28 + i] := len[i]; }
        assert frame[28..32] == len && frame[..28] == h[..28] && frame[32..36] == h[32..36];
        WordRoundTrip(Clamped(wireLen));
        WordBack(h[28..32]);
        if wireLen > 0 {
          phase, received := Data, 0;
          assert frame[..28] + WriteLE32(wireLen) + frame[32..36] == h;
        } else {
          SameFields(h, frame[..36]);
          assert frame[36..36] == [];
          Deliver();
          Reset();
        }
      }
    }

    method DataByte(b: byte)
      requires Valid() && phase == Data
      modifies this, frame
      ensures Valid() && Contents() == Step(old(Contents()), b).0
      ensures delivered == old(delivered) + Step(old(Contents()), b).1
    {
      hide ReadLE32, WriteLE32;
      ghost var d := Contents();
      WordRoundTrip(wireLen);
      assert d.header[28..32] == WriteLE32(wireLen);
      if received < MAX_DATA_LEN { frame[HEADER_SIZE + received] := b; }
      received := received + 1;
      assert frame[..28] + WriteLE32(wireLen) + frame[32..36] == d.header;
      assert frame[28..32] == WriteLE32(Clamped(wireLen));
      if received >= wireLen {
        WordRoundTrip(Clamped(wireLen));
        SameFields(d.header, frame[..36]);
        assert frame[36..36 + Clamped(wireLen)] == (if d.consumed < MAX_DATA_LEN then d.kept + [b] else d.kept);
        Deliver();
        Reset();
      }
    }

    /** `agwpe_decoder_process_bytes`. */
    method ProcessBytes(data: seq<byte>)
      requires Valid()
      modifies this, frame
      ensures Valid() && Contents() == Run(old(Contents()), data).0
      ensures delivered == old(delivered) + Run(old(Contents()), data).1
    {
      hide Step;
      ghost var d := Contents();
      for i := 0 to |data|
        invariant Valid() && Inv(d) && Contents() == Run(d, data[..i]).0
        invariant delivered == old(delivered) + Run(d, data[..i]).1
      {
        assert data[..i + 1] == data[..i] + [data[i]];
        RunAppend(d, data[..i], [data[i]]);
        RunOne(Contents(), data[i]);
        ProcessByte(data[i]);
      }
      assert data[..|data|] == data;
    }
  }

  lemma WordBack(b: seq<byte>)
    requires |b| == 4
    ensures WriteLE32(ReadLE32(b)) == b
  {
    var b0: nat, b1: nat, b2: nat, b3: nat := b[0], b[1], b[2], b[3];
    var m2 := b2 + 0x100 * b3;
    var m1 := b1 + 0x100 * m2;
    assert (b0 + 0x100 * m1) / 0x100 == m1 && (b0 + 0x100 * m1) % 0x100 == b0;
    assert m1 / 0x100 == m2 && m1 % 0x100 == b1;
    assert m2 / 0x100 == b3 && m2 % 0x100 == b2;
  }

  lemma SameFields(g: seq<byte>, h: seq<byte>)
    requires |g| == |h| == HEADER_SIZE && g[..28] == h[..28] && g[32..36] == h[32..36]
    ensures forall data :: FrameOf(g, data) == FrameOf(h, data)
  {
    hide ReadLE32;
    assert g[0] == g[..28][0] && g[4] == g[..28][4] && g[6] == g[..28][6];
    assert h[0] == h[..28][0] && h[4] == h[..28][4] && h[6] == h[..28][6];
    assert g[8..18] == g[..28][8..18] && g[18..28] == g[..28][18..28];
    assert h[8..18] == h[..28][8..18] && h[18..28] == h[..28][18..28];
  }
}

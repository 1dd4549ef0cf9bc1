/** Addresses and frames on the wire: the encoders and decoders, and what a decoder makes of what was built. */
module FrameCodec {
  import opened Ax25Types

  // ---- Addresses ----------------------------------------------------------------------------------

  const SPACE: byte := 32

  function Upper(c: byte): byte { if 97 <= c <= 122 then c - 32 else c }

  /** A character shifted left by one bit, the top bit lost. */
  function CallByte(call: Callsign, i: nat): byte { 2 * Upper(if i < |call| then call[i] else SPACE) % 256 }

  function SsidByte(a: Address): byte {
    96 + 2 * (a.ssid % 16) + (if a.repeated then 128 else 0) + (if a.last then 1 else 0)
  }

  function AddressBytes(a: Address): (out: seq<byte>)
    ensures |out| == ADDRESS_LEN
  {
    seq(6, i requires 0 <= i < 6 => CallByte(a.callsign, i)) + [SsidByte(a)]
  }

  /** The characters of the six bytes that are not spaces. */
  function Letters(bytes: seq<byte>): (s: seq<byte>)
    ensures |s| <= |bytes|
  {
    if bytes == [] then []
    else Letters(bytes[..|bytes| - 1]) + (if bytes[|bytes| - 1] / 2 != SPACE then [bytes[|bytes| - 1] / 2] else [])
  }

  /** The C string that starts an array of characters. */
  function CString(s: seq<byte>): (t: seq<byte>)
    ensures |t| <= |s| && 0 !in t && (0 !in s ==> t == s)
  {
    if s == [] || s[0] == 0 then [] else [s[0]] + CString(s[1..])
  }

  function DecodedAddress(bytes: seq<byte>): Address
    requires |bytes| == ADDRESS_LEN
  {
    Address(CString(Letters(bytes[..6])), bytes[6] / 2 % 16, bytes[6] >= 128, bytes[6] % 2 == 1)
  }

  /** `ax25_address_encode`. */
  method EncodeAddress(a: Address, out: array<byte>)
    requires out.Length == ADDRESS_LEN
    modifies out
    ensures out[..] == AddressBytes(a)
  {
    for i := 0 to 6
      invariant forall j :: 0 <= j < i ==> out[j] == CallByte(a.callsign, j)
    {
      var c := if i < |a.callsign| then Upper(a.callsign[i]) else SPACE;
      out[i] := 2 * c % 256;
    }
    var ssid: byte := 96 + 2 * (a.ssid % 16);
    if a.repeated { ssid := ssid + 128; }
    if a.last { ssid := ssid + 1; }
    out[6] := ssid;
  }

  /** `ax25_address_decode`. */
  method DecodeAddress(bytes: seq<byte>) returns (a: Address)
    requires |bytes| == ADDRESS_LEN
    ensures a == DecodedAddress(bytes)
  {
    var call: seq<byte> := [];
    for i := 0 to 6
      invariant call == Letters(bytes[..i])
    {
      assert bytes[..i + 1][..i] == bytes[..i];
      var c := bytes[i] / 2;
      if c != SPACE { call := call + [c]; }
    }
    a := Address(CString(call), bytes[6] / 2 % 16, bytes[6] >= 128, bytes[6] % 2 == 1);
  }

  /** An address the wire can carry unchanged: upper case, seven bits, no space, SSID 0 to 15. */
  predicate Wired(a: Address) { a.ssid < 16 && Plain(a.callsign) }

  predicate Plain(call: Callsign) {
    forall i :: 0 <= i < |call| ==> call[i] < 128 && call[i] != SPACE && !(97 <= call[i] <= 122)
  }

  /** The address that comes back. */
  function Carried(a: Address): Address { DecodedAddress(AddressBytes(a)) }

  function Shown(call: Callsign): Callsign {
    CString(Letters(seq(6, i requires 0 <= i < 6 => CallByte(call, i))))
  }

  lemma CarriedFields(a: Address)
    ensures Carried(a) == Address(Shown(a.callsign), a.ssid % 16, a.repeated, a.last)
  {
    assert AddressBytes(a)[..6] == seq(6, i requires 0 <= i < 6 => CallByte(a.callsign, i));
  }

  lemma PlainHalf(call: Callsign, i: nat)
    requires Plain(call)
    ensures CallByte(call, i) / 2 == if i < |call| then call[i] else SPACE
  {
  }

  lemma {:induction false} LettersOf(call: Callsign, n: nat)
    requires n <= 6 && Plain(call)
    ensures var b := seq(n, i requires 0 <= i < n => CallByte(call, i)); Letters(b) == if n <= |call| then call[..n]
            else call
  {
    hide CallByte, Upper;
    if n > 0 {
      var b := seq(n, i requires 0 <= i < n => CallByte(call, i));
      assert b[..n - 1] == seq(n - 1, i requires 0 <= i < n - 1 => CallByte(call, i));
      LettersOf(call, n - 1);
      PlainHalf(call, n - 1);
      if n <= |call| { assert call[..n] == call[..n - 1] + [call[n - 1]]; }
    }
  }

  lemma {:induction false} LettersRange(bytes: seq<byte>)
    ensures forall c :: c in Letters(bytes) ==>
            c != SPACE && c < 128 &&
            exists i :: 0 <= i < |bytes|
                && c == bytes[i] / 2
  {
    if bytes != [] {
      var n := |bytes| - 1;
      LettersRange(bytes[..n]);
      forall c | c in Letters(bytes)
        ensures c != SPACE && c < 128 && exists i :: 0 <= i < |bytes| && c == bytes[i] / 2
      {
        if c in Letters(bytes[..n]) {
          var i :| 0 <= i < n && c == bytes[..n][i] / 2;
          assert c == bytes[i] / 2;
        } else {
          assert c == bytes[n] / 2;
        }
      }
    }
  }

  lemma {:induction false} CStringMembers(s: seq<byte>)
    ensures forall c :: c in CString(s) ==> c in s
  {
    if s != [] && s[0] != 0 { CStringMembers(s[1..]); }
  }

  lemma CallHalf(call: Callsign, i: nat)
    ensures CallByte(call, i) / 2 == if i < |call| then Upper(call[i]) % 128 else SPACE
  {
  }

  lemma ShownRange(call: Callsign)
    ensures forall c :: c in Shown(call) ==>
            c != SPACE && c < 128 &&
            exists k :: 0 <= k < |call|
                && c == Upper(call[k]) % 128
  {
    hide CallByte, Upper;
    var b := seq(6, i requires 0 <= i < 6 => CallByte(call, i));
    LettersRange(b);
    CStringMembers(Letters(b));
    forall c | c in Shown(call)
      ensures c != SPACE && c < 128 && exists k :: 0 <= k < |call| && c == Upper(call[k]) % 128
    {
      assert c in Letters(b);
      var i :| 0 <= i < 6 && c == b[i] / 2;
      CallHalf(call, i);
    }
  }

  /** A callsign shows the same after the wire exactly when it is plain. */
  lemma ShownPlain(call: Callsign)
    ensures Shown(call) == call <==> Plain(call)
  {
    if Plain(call) {
      LettersOf(call, 6);
      assert call == if 6 <= |call| then call[..6] else call;
    } else if Shown(call) == call {
      ShownRange(call);
      forall k | 0 <= k < |call| ensures call[k] < 128 && call[k] != SPACE && !(97 <= call[k] <= 122) {
        assert call[k] in Shown(call);
        var j :| 0 <= j < |call| && call[k] == Upper(call[j]) % 128;
        assert call[j] in Shown(call);
      }
    }
  }

  /** The address round trip, and exactly when it holds. */
  lemma AddressRoundTrip(a: Address)
    ensures Carried(a) == a <==> Wired(a)
  {
    CarriedFields(a);
    ShownPlain(a.callsign);
  }

  // ---- The buffer a frame is built in ------------------------------------------------------------------

  class Buffer {
    const data: array<byte>
    var len: nat

    ghost predicate Valid()
    {
      data.Length == BUFFER_SIZE
    }

    ghost function Contents(): seq<byte>
      requires Valid() && len <= BUFFER_SIZE
      reads this, data
    {
      data[..len]
    }

    constructor ()
      ensures Valid() && fresh(data) && len == 0
    {
      data := new byte[BUFFER_SIZE](_ => 0);
      len := 0;
    }

    /** `ax25_buffer_reset`. */
    method Clear()
      requires Valid()
      modifies this
      ensures len == 0
    {
      len := 0;
    }

    /** `ax25_buffer_append`. */
    method Append(bytes: seq<byte>) returns (code: Code)
      requires Valid() && len <= BUFFER_SIZE
      modifies this, data
      ensures len <= BUFFER_SIZE && code == if old(len) + |bytes| <= BUFFER_SIZE then OK else InvalidSize
      ensures Contents() == if code == OK then old(Contents()) + bytes else old(Contents())
    {
      if len + |bytes| > BUFFER_SIZE { return InvalidSize; }
      forall i | 0 <= i < |bytes| { data[len + i] := bytes[i]; }
      len := len + |bytes|;
      code := OK;
    }

    /** `ax25_buffer_append_byte`. */
    method AppendByte(b: byte) returns (code: Code)
      requires Valid() && len <= BUFFER_SIZE
      modifies this, data
      ensures len <= BUFFER_SIZE && code == if old(len) < BUFFER_SIZE then OK else InvalidSize
      ensures Contents() == if code == OK then old(Contents()) + [b] else old(Contents())
    {
      if len >= BUFFER_SIZE { return InvalidSize; }
      data[len] := b;
      len := len + 1;
      code := OK;
    }
  }

  // ---- Building a frame -----------------------------------------------------------------------------------

  function DestinationBytes(f: Frame): seq<byte> {
    AddressBytes(f.destination.(last := false, repeated := f.destination.repeated || f.isCommand))
  }

  function SourceBytes(f: Frame): seq<byte> {
    AddressBytes(f.source.(last := |f.digipeaters| == 0, repeated := f.source.repeated || !f.isCommand))
  }

  function PathBytes(digis: seq<Address>): (out: seq<byte>)
    ensures |out| == ADDRESS_LEN * |digis|
  {
    if digis == [] then [] else AddressBytes(digis[0].(last := |digis| == 1)) + PathBytes(digis[1..])
  }

  function Body(f: Frame): seq<byte> {
    [f.control] + (if HasPid(f.ftype) then [f.pid] else []) + f.payload
  }

  function Built(f: Frame): seq<byte> { DestinationBytes(f) + SourceBytes(f) + PathBytes(f.digipeaters) + Body(f) }

  /** The router's `frame_byte_count`. */
  function FrameByteCount(f: Frame): nat {
    ADDRESS_LEN * (2 + |f.digipeaters|) + (if HasPid(f.ftype) then 2 else 1) + |f.payload|
  }

  /** The router's estimate is the built length, and a frame within the source's arrays fits a buffer. */
  lemma BuiltLength(f: Frame)
    ensures |Built(f)| == FrameByteCount(f)
    ensures |f.digipeaters| <= MAX_DIGIPEATERS && |f.payload| <= MAX_INFO_LEN ==> 15 <= |Built(f)| <= BUFFER_SIZE - 10
  {
  }

  /** One address field as section 3.12 of AX.25 version 2.2 draws it, in numbers, at position `at`: six characters,
      upper case and shifted left, then a byte with the C or H bit, two reserved bits, the SSID and the extension
      bit. */
  predicate LaidOut(w: seq<byte>, at: nat, a: Address, top: bool, last: bool) {
    && at + 7 <= |w|
    && w[at..at + 6] == seq(6, j requires 0 <= j < 6 => Character(if j < |a.callsign| then a.callsign[j] else 32))
    && (w[at + 6] >= 128 <==> top) && w[at + 6] / 32 % 4 == 3 && w[at + 6] / 2 % 16 == a.ssid % 16
    && (w[at + 6] % 2 == 1 <==> last)
  }

  function Character(c: byte): byte { 2 * (if 97 <= c <= 122 then c - 32 else c) % 256 }

  lemma AddressLaidOut(front: seq<byte>, a: Address, rest: seq<byte>)
    ensures LaidOut(front + AddressBytes(a) + rest, |front|, a, a.repeated, a.last)
  {
    hide SsidByte, Character, CallByte;
    var w := front + AddressBytes(a) + rest;
    assert w[|front|..|front| + 6] == AddressBytes(a)[..6];
    forall j | 0 <= j < 6
      ensures CallByte(a.callsign, j) == Character(if j < |a.callsign| then a.callsign[j] else 32)
    {
      CallByteIs(a.callsign, j);
    }
    assert w[|front| + 6] == AddressBytes(a)[6] == SsidByte(a);
    SsidBits(a);
  }

  lemma CallByteIs(call: Callsign, j: nat)
    ensures CallByte(call, j) == Character(if j < |call| then call[j] else 32)
  {
  }

  lemma SsidBits(a: Address)
    ensures var b := SsidByte(a);
            (b >= 128 <==> a.repeated) && b / 32 % 4 == 3 && b / 2 % 16 == a.ssid % 16 && (b % 2 == 1 <==> a.last)
  {
    var n: nat, h: nat, e: nat := a.ssid % 16, if a.repeated then 1 else 0, if a.last then 1 else 0;
    var b: nat := SsidByte(a);
    assert b == 128 * h + 96 + 2 * n + e && b / 2 == 64 * h + 48 + n && b / 32 == 4 * h + 3;
  }

  lemma {:induction false} PathLaidOut(front: seq<byte>, digis: seq<Address>, rest: seq<byte>, i: nat)
    requires i < |digis|
    ensures LaidOut(front + PathBytes(digis) + rest, |front| + 7 * i, digis[i], digis[i].repeated, i == |digis| - 1)
    decreases |digis|
  {
    hide AddressBytes, LaidOut;
    var a := digis[0].(last := |digis| == 1);
    var w := front + PathBytes(digis) + rest;
    if i == 0 {
      assert w == front + AddressBytes(a) + (PathBytes(digis[1..]) + rest);
      AddressLaidOut(front, a, PathBytes(digis[1..]) + rest);
      SameLayout(w, |front|, a, digis[0]);
    } else {
      assert w == (front + AddressBytes(a)) + PathBytes(digis[1..]) + rest;
      PathLaidOut(front + AddressBytes(a), digis[1..], rest, i - 1);
    }
  }

  /** The flags an address carries in memory are not what decides its layout. */
  lemma SameLayout(w: seq<byte>, at: nat, a: Address, b: Address)
    requires a.callsign == b.callsign && a.ssid == b.ssid
    ensures LaidOut(w, at, a, a.repeated, a.last) ==> LaidOut(w, at, b, a.repeated, a.last)
  {
    hide Character;
  }

  /** What is built, byte by byte: destination, source, path, control, PID and payload.  A command has the C bit in the
      destination and a response in the source, digipeaters carry their H bits, and the extension bit ends the field. */
  ghost predicate FrameLaidOut(w: seq<byte>, f: Frame) {
    var n := |f.digipeaters|;
    && LaidOut(w, 0, f.destination, f.isCommand || f.destination.repeated, false)
    && LaidOut(w, 7, f.source, !f.isCommand || f.source.repeated, n == 0)
    && (forall i :: 0 <= i < n ==>
          LaidOut(w, 14 + 7 * i, f.digipeaters[i], f.digipeaters[i].repeated, i == n - 1))
    && |w| >= 15 + 7 * n && w[14 + 7 * n] == f.control
    && w[15 + 7 * n..] == (if f.ftype == I || f.ftype == UI then [f.pid] else []) + f.payload
  }

  lemma BuiltLayout(f: Frame)
    ensures FrameLaidOut(Built(f), f)
  {
    hide DestinationBytes, SourceBytes, PathBytes, LaidOut, Body, AddressBytes;
    var w, n := Built(f), |f.digipeaters|;
    EndsLaidOut(f);
    forall i | 0 <= i < n ensures LaidOut(w, 14 + 7 * i, f.digipeaters[i], f.digipeaters[i].repeated, i == n - 1) {
      PathLaidOut(DestinationBytes(f) + SourceBytes(f), f.digipeaters, Body(f), i);
    }
    BodyLaidOut(f);
  }

  lemma EndsLaidOut(f: Frame)
    ensures LaidOut(Built(f), 0, f.destination, f.isCommand || f.destination.repeated, false)
    ensures LaidOut(Built(f), 7, f.source, !f.isCommand || f.source.repeated, |f.digipeaters| == 0)
    ensures |DestinationBytes(f) + SourceBytes(f)| == 14
  {
    hide AddressBytes, PathBytes, LaidOut, Body;
    var d := f.destination.(last := false, repeated := f.destination.repeated || f.isCommand);
    var s := f.source.(last := |f.digipeaters| == 0, repeated := f.source.repeated || !f.isCommand);
    var w, rest := Built(f), PathBytes(f.digipeaters) + Body(f);
    assert w == [] + AddressBytes(d) + (AddressBytes(s) + rest);
    AddressLaidOut([], d, AddressBytes(s) + rest);
    SameLayout(w, 0, d, f.destination);
    assert w == AddressBytes(d) + AddressBytes(s) + rest;
    AddressLaidOut(AddressBytes(d), s, rest);
    SameLayout(w, 7, s, f.source);
  }

  lemma BodyLaidOut(f: Frame)
    ensures var w, n := Built(f), |f.digipeaters|;
            && |w| >= 15 + 7 * n && w[14 + 7 * n] == f.control
            && w[15 + 7 * n..] == (if f.ftype == I || f.ftype == UI then [f.pid] else []) + f.payload
  {
    hide DestinationBytes, SourceBytes, PathBytes;
    var w, n := Built(f), |f.digipeaters|;
    assert w == (DestinationBytes(f) + SourceBytes(f) + PathBytes(f.digipeaters)) + Body(f);
    assert |DestinationBytes(f) + SourceBytes(f)| == 14 by { EndsLaidOut(f); }
    assert w[14 + 7 * n..] == Body(f);
    assert w[14 + 7 * n] == Body(f)[0] && w[15 + 7 * n..] == Body(f)[1..];
  }

  /** Without H bits in the two stations the C bits say what kind of frame it is, and exactly one of them is set. */
  lemma CommandBits(f: Frame)
    requires !f.destination.repeated && !f.source.repeated
    ensures |Built(f)| >= 15
    ensures Built(f)[6] >= 128 <==> f.isCommand
    ensures Built(f)[13] >= 128 <==> !f.isCommand
  {
    BuiltLayout(f);
  }

  /** `ax25_frame_build`.  The results of the appends are ignored, as in the source: none of them can fail.
      The payload array holds `MAX_INFO_LEN` bytes. */
  method BuildFrame(f: Frame, out: Buffer) returns (code: Code)
    requires out.Valid() && |f.payload| <= MAX_INFO_LEN
    modifies out, out.data
    ensures code == if |f.digipeaters| <= MAX_DIGIPEATERS then OK else InvalidSize
    ensures code == OK ==> out.len <= BUFFER_SIZE && out.Contents() == Built(f)
    ensures code == OK ==> FrameLaidOut(out.Contents(), f)
    ensures code != OK ==> out.len == old(out.len) && out.data[..] == old(out.data[..])
  {
    hide Built, DestinationBytes, SourceBytes, PathBytes, Body;
    if |f.digipeaters| > MAX_DIGIPEATERS { return InvalidSize; }
    out.Clear();
    var addr := new byte[ADDRESS_LEN];
    AppendStations(f, addr, out);
    AppendPath(f.digipeaters, addr, out);
    AppendBody(f, out);
    BuiltParts(f);
    BuiltLayout(f);
    code := OK;
  }

  lemma BuiltParts(f: Frame)
    ensures Built(f) == DestinationBytes(f) + SourceBytes(f) + PathBytes(f.digipeaters) + Body(f)
  {
  }

  method AppendStations(f: Frame, addr: array<byte>, out: Buffer)
    requires out.Valid() && out.len == 0 && addr.Length == ADDRESS_LEN && addr != out.data
    modifies out, out.data, addr
    ensures out.len == 2 * ADDRESS_LEN && out.Contents() == DestinationBytes(f) + SourceBytes(f)
  {
    hide AddressBytes;
    EncodeAddress(f.destination.(last := false, repeated := f.destination.repeated || f.isCommand), addr);
    var _ := out.Append(addr[..]);
    assert out.Contents() == DestinationBytes(f);
    EncodeAddress(f.source.(last := |f.digipeaters| == 0, repeated := f.source.repeated || !f.isCommand), addr);
    var _ := out.Append(addr[..]);
  }

  method AppendBody(f: Frame, out: Buffer)
    requires out.Valid() && out.len <= ADDRESS_LEN * 10 && |f.payload| <= MAX_INFO_LEN
    modifies out, out.data
    ensures out.len <= BUFFER_SIZE && out.Contents() == old(out.Contents()) + Body(f)
  {
    var _ := out.AppendByte(f.control);
    if HasPid(f.ftype) { var _ := out.AppendByte(f.pid); }
    if |f.payload| > 0 { var _ := out.Append(f.payload); }
  }

  method AppendPath(digis: seq<Address>, addr: array<byte>, out: Buffer)
    requires out.Valid() && |digis| <= MAX_DIGIPEATERS && out.len == 2 * ADDRESS_LEN
    requires addr.Length == ADDRESS_LEN && addr != out.data
    modifies out, out.data, addr
    ensures out.len == ADDRESS_LEN * (2 + |digis|) && out.Contents() == old(out.Contents()) + PathBytes(digis)
  {
    hide AddressBytes, PathBytes;
    ghost var head := out.Contents();
    var n := |digis|;
    assert digis[0..] == digis;
    for i := 0 to n
      invariant out.len == ADDRESS_LEN * (2 + i)
      invariant out.Contents() + PathBytes(digis[i..]) == head + PathBytes(digis)
    {
      EncodeAddress(digis[i].(last := i == n - 1), addr);
      PathStep(out.Contents(), digis, i);
      var _ := out.Append(addr[..]);
    }
    PathEnd(digis[n..]);
    assert out.Contents() + [] == out.Contents();
  }

  lemma PathStep(done: seq<byte>, digis: seq<Address>, i: nat)
    requires i < |digis|
    ensures done + PathBytes(digis[i..]) ==
            done + AddressBytes(digis[i].(last := i == |digis| - 1)) + PathBytes(digis[i + 1..])
  {
    assert digis[i..][1..] == digis[i + 1..];
  }

  lemma PathEnd(none: seq<Address>)
    requires none == []
    ensures PathBytes(none) == []
  {
  }

  // ---- Parsing a frame ------------------------------------------------------------------------------------

  datatype Parsed = Parsed(frame: Frame) | Malformed

  /** The digipeaters from `pos` on and the position after them: at most `room`, up to one with the extension bit. */
  function Path(data: seq<byte>, pos: nat, room: nat): (r: (seq<Address>, nat))
    ensures pos <= r.1 && r.1 == pos + ADDRESS_LEN * |r.0| && |r.0| <= room && (pos <= |data| ==> r.1 <= |data|)
    decreases room
  {
    if pos + ADDRESS_LEN > |data| || room == 0 then ([], pos)
    else
      var a := DecodedAddress(data[pos..pos + ADDRESS_LEN]);
      if a.last then ([a], pos + ADDRESS_LEN)
      else
        var (rest, end) := Path(data, pos + ADDRESS_LEN, room - 1);
        ([a] + rest, end)
  }

  function Clip(payload: seq<byte>): seq<byte> {
    if |payload| > MAX_INFO_LEN then payload[..MAX_INFO_LEN] else payload
  }

  /** The control byte, the PID and the payload. */
  function ParseBody(dst: Address, src: Address, digis: seq<Address>, body: seq<byte>): Parsed {
    if body == [] then Malformed
    else
      var t := IdentifyType(body[0]);
      var d := dst.(repeated := false);
      var s := src.(repeated := false);
      if !HasPid(t) then Parsed(Frame(d, s, digis, dst.repeated, t, body[0], 0, Clip(body[1..])))
      else if |body| == 1 then Malformed
      else Parsed(Frame(d, s, digis, dst.repeated, t, body[0], body[1], Clip(body[2..])))
  }

  function Parse(data: seq<byte>): Parsed {
    if |data| < 15 then Malformed
    else
      var dst := DecodedAddress(data[..7]);
      var src := DecodedAddress(data[7..14]);
      var (digis, pos) := if src.last then ([], 14) else Path(data, 14, MAX_DIGIPEATERS);
      ParseBody(dst, src, digis, data[pos..])
  }

  /** `ax25_frame_parse`. */
  method ParseFrame(data: seq<byte>) returns (r: Parsed)
    ensures r == Parse(data)
  {
    hide DecodedAddress, Path, ParseBody;
    if |data| < 15 { return Malformed; }
    var dst := DecodeAddress(data[..7]);
    var src := DecodeAddress(data[7..14]);
    var digis, pos := ParsePath(data, src.last);
    r := ParseRest(data, pos, dst, src, digis);
  }

  method ParsePath(data: seq<byte>, last: bool) returns (digis: seq<Address>, pos: nat)
    requires |data| >= 15
    ensures (digis, pos) == if last then ([], 14) else Path(data, 14, MAX_DIGIPEATERS)
    ensures pos <= |data|
  {
    hide DecodedAddress, Path;
    digis, pos := [], 14;
    ghost var all := if last then ([], 14) else Path(data, 14, MAX_DIGIPEATERS);
    var more := !last;
    while more && pos + ADDRESS_LEN <= |data|
      invariant pos <= |data| && |digis| <= MAX_DIGIPEATERS
      invariant if more then digis + Path(data, pos, MAX_DIGIPEATERS - |digis|).0 == all.0 else digis == all.0
      invariant if more then Path(data, pos, MAX_DIGIPEATERS - |digis|).1 == all.1 else pos == all.1
      decreases more, |data| - pos
    {
      PathUnfold(data, pos, MAX_DIGIPEATERS - |digis|);
      if |digis| >= MAX_DIGIPEATERS { break; }
      var a := DecodeAddress(data[pos..pos + ADDRESS_LEN]);
      digis := digis + [a];
      pos := pos + ADDRESS_LEN;
      if a.last { more := false; }
    }
    if more { PathUnfold(data, pos, MAX_DIGIPEATERS - |digis|); }
    assert digis + [] == digis;
    assert digis == all.0 && pos == all.1;
  }

  lemma PathUnfold(data: seq<byte>, pos: nat, room: nat)
    ensures pos + ADDRESS_LEN > |data| || room == 0 ==> Path(data, pos, room) == ([], pos)
    ensures pos + ADDRESS_LEN <= |data| && room > 0 ==>
              var a := DecodedAddress(data[pos..pos + ADDRESS_LEN]);
              Path(data, pos, room) == if a.last then ([a], pos + ADDRESS_LEN)
                                       else ([a] + Path(data, pos + ADDRESS_LEN, room - 1).0,
                                         Path(data, pos + ADDRESS_LEN, room - 1).1)
  {
  }

  /** The control byte, the PID and the payload, from `start` on. */
  method ParseRest(data: seq<byte>, start: nat, dst: Address, src: Address, digis: seq<Address>) returns (r: Parsed)
    requires start <= |data|
    ensures r == ParseBody(dst, src, digis, data[start..])
  {
    ghost var body := data[start..];
    var pos := start;
    if pos >= |data| { return Malformed; }
    var control := data[pos];
    var t := IdentifyType(control);
    var pid: byte := 0;
    pos := pos + 1;
    if t == I || t == UI {
      if pos >= |data| { return Malformed; }
      pid := data[pos];
      pos := pos + 1;
    }
    assert data[pos..] == body[pos - start..];
    var payload := data[pos..];
    if |payload| > MAX_INFO_LEN { payload := payload[..MAX_INFO_LEN]; }
    r := Parsed(Frame(dst.(repeated := false), src.(repeated := false), digis, dst.repeated, t, control, pid, payload));
  }

  // ---- The frame round trip --------------------------------------------------------------------------------------

  function CarriedPath(digis: seq<Address>): (r: seq<Address>)
    ensures |r| == |digis|
  {
    seq(|digis|, i requires 0 <= i < |digis| => Carried(digis[i].(last := i == |digis| - 1)))
  }

  /** What the wire makes of a frame whose type agrees with its control byte. */
  function CarriedFrame(f: Frame): Frame {
    Frame(Carried(f.destination).(repeated := false, last := false),
          Carried(f.source).(repeated := false, last := |f.digipeaters| == 0),
          CarriedPath(f.digipeaters), f.isCommand || f.destination.repeated,
          f.ftype, f.control, if HasPid(f.ftype) then f.pid else 0, f.payload)
  }

  lemma {:induction false} PathCarried(front: seq<byte>, digis: seq<Address>, rest: seq<byte>, room: nat)
    requires 0 < |digis| <= room
    ensures Path(front + PathBytes(digis) + rest, |front|, room) ==
            (CarriedPath(digis), |front| + ADDRESS_LEN * |digis|)
    decreases |digis|
  {
    hide AddressBytes, DecodedAddress;
    var a := digis[0].(last := |digis| == 1);
    var bytes := AddressBytes(a);
    var data := front + PathBytes(digis) + rest;
    var tail := PathBytes(digis[1..]);
    assert data == front + bytes + (tail + rest);
    assert data[|front|..|front| + ADDRESS_LEN] == bytes;
    CarriedFields(a);
    if |digis| > 1 {
      PathCarried(front + bytes, digis[1..], rest, room - 1);
      assert data == (front + bytes) + tail + rest;
      assert CarriedPath(digis) == [Carried(a)] + CarriedPath(digis[1..]);
    } else {
      assert CarriedPath(digis) == [Carried(a)];
    }
  }

  lemma BodyCarried(dst: Address, src: Address, digis: seq<Address>, f: Frame)
    requires f.ftype == IdentifyType(f.control) && |f.payload| <= MAX_INFO_LEN
    ensures ParseBody(dst, src, digis, Body(f)) ==
            Parsed(Frame(dst.(repeated := false), src.(repeated := false), digis, dst.repeated, f.ftype, f.control,
                         if HasPid(f.ftype) then f.pid else 0, f.payload))
  {
    if HasPid(f.ftype) { assert Body(f)[2..] == f.payload; } else { assert Body(f)[1..] == f.payload; }
  }

  /** Parsing what was built: the frame comes back with its addresses as the wire carries them. */
  lemma FrameCarried(f: Frame)
    requires |f.digipeaters| <= MAX_DIGIPEATERS && |f.payload| <= MAX_INFO_LEN && f.ftype == IdentifyType(f.control)
    ensures Parse(Built(f)) == Parsed(CarriedFrame(f))
  {
    hide AddressBytes, DecodedAddress, ParseBody, Path, PathBytes, Body, IdentifyType, CarriedPath;
    var d, s := DestinationBytes(f), SourceBytes(f);
    var data := Built(f);
    BuiltLength(f);
    assert data[..7] == d && data[7..14] == s;
    var dst := Carried(f.destination.(last := false, repeated := f.destination.repeated || f.isCommand));
    var src := Carried(f.source.(last := |f.digipeaters| == 0, repeated := f.source.repeated || !f.isCommand));
    CarriedFields(f.destination);
    CarriedFields(f.source);
    CarriedFields(f.destination.(last := false, repeated := f.destination.repeated || f.isCommand));
    CarriedFields(f.source.(last := |f.digipeaters| == 0, repeated := f.source.repeated || !f.isCommand));
    var end := 14 + 7 * |f.digipeaters|;
    if f.digipeaters == [] {
      NoPath(f);
    } else {
      PathCarried(d + s, f.digipeaters, Body(f), MAX_DIGIPEATERS);
    }
    assert data[end..] == Body(f);
    BodyCarried(dst, src, CarriedPath(f.digipeaters), f);
  }

  lemma NoPath(f: Frame)
    requires f.digipeaters == []
    ensures PathBytes(f.digipeaters) == [] && CarriedPath(f.digipeaters) == []
  {
  }

  /** The frames the wire carries unchanged. */
  predicate Canonical(f: Frame) {
    && |f.digipeaters| <= MAX_DIGIPEATERS && |f.payload| <= MAX_INFO_LEN
    && f.ftype == IdentifyType(f.control) && (!HasPid(f.ftype) ==> f.pid == 0)
    && Wired(f.destination) && !f.destination.repeated && !f.destination.last
    && Wired(f.source) && !f.source.repeated && f.source.last == (|f.digipeaters| == 0)
    && forall i :: 0 <= i < |f.digipeaters| ==>
       Wired(f.digipeaters[i])
       && f.digipeaters[i].last == (i == |f.digipeaters| - 1)
  }

  lemma ParsedType(data: seq<byte>)
    ensures Parse(data).Parsed? ==> var f := Parse(data).frame;
            f.ftype == IdentifyType(f.control) && |f.digipeaters| <= MAX_DIGIPEATERS && |f.payload| <= MAX_INFO_LEN
  {
    hide DecodedAddress, IdentifyType;
  }

  /** The address in the seven bytes from `at` on. */
  function AddressAt(data: seq<byte>, at: nat): Address
    requires at + 7 <= |data|
  {
    DecodedAddress(data[at..at + 7])
  }

  lemma {:induction false} PathReads(data: seq<byte>, pos: nat, room: nat)
    requires pos <= |data|
    ensures var digis := Path(data, pos, room).0;
            var n := |digis|;
            && n <= room && pos + 7 * n <= |data|
            && (forall i :: 0 <= i < n ==> digis[i] == AddressAt(data, pos + 7 * i))
            && (forall i :: 0 <= i < n - 1 ==> !digis[i].last)
            && (n == room || pos + 7 * n + 7 > |data| || (n > 0 && digis[n - 1].last))
    decreases room
  {
    hide DecodedAddress;
    if pos + 7 <= |data| && room > 0 {
      var a := AddressAt(data, pos);
      PathReads(data, pos + 7, room - 1);
      var rest := Path(data, pos + 7, room - 1).0;
      var digis := Path(data, pos, room).0;
      if !a.last {
        assert digis == [a] + rest;
        forall i | 0 <= i < |digis| ensures digis[i] == AddressAt(data, pos + 7 * i) {
          if i > 0 { assert digis[i] == rest[i - 1]; }
        }
      }
    }
  }

  lemma ParseIs(data: seq<byte>)
    requires |data| >= 15
    ensures var digis := if data[13] % 2 == 1 then [] else Path(data, 14, 8).0;
            && 14 + 7 * |digis| <= |data|
            && Parse(data) == ParseBody(AddressAt(data, 0), AddressAt(data, 7), digis, data[14 + 7 * |digis|..])
  {
    hide Path, Letters, CString, ParseBody;
    PathReads(data, 14, 8);
  }

  lemma BodyReads(dst: Address, src: Address, digis: seq<Address>, body: seq<byte>)
    requires ParseBody(dst, src, digis, body).Parsed?
    ensures var f := ParseBody(dst, src, digis, body).frame;
            && |body| >= 1 && f.destination == dst.(repeated := false) && f.source == src.(repeated := false)
            && f.digipeaters == digis && f.isCommand == dst.repeated && f.control == body[0]
            && f.ftype == IdentifyType(f.control)
            && var k := if HasPid(f.ftype) then 2 else 1;
               && k <= |body| && f.pid == (if HasPid(f.ftype) then body[1] else 0)
               && f.payload == body[k..if |body| > k + 256 then k + 256 else |body|]
  {
    hide IdentifyType;
  }

  /** What is read, byte by byte, from any bytes that are accepted: the two stations and the C bit, and the rest of the
      bytes after the path, of which 256 are kept. */
  lemma ParsedReads(data: seq<byte>)
    requires Parse(data).Parsed?
    ensures var f := Parse(data).frame;
            var n := |f.digipeaters|;
            && n <= 8 && |data| >= 15 + 7 * n
            && f.destination == AddressAt(data, 0).(repeated := false) && (f.isCommand <==> data[6] >= 128)
            && f.source == AddressAt(data, 7).(repeated := false) && f.control == data[14 + 7 * n]
            && f.ftype == IdentifyType(f.control)
            && var k := 14 + 7 * n + if HasPid(f.ftype) then 2 else 1;
               && k <= |data| && f.pid == (if HasPid(f.ftype) then data[15 + 7 * n] else 0)
               && f.payload == data[k..if |data| > k + 256 then k + 256 else |data|]
  {
    hide IdentifyType, Path, DecodedAddress, ParseBody, HasPid, Parse, AddressAt;
    assert |data| >= 15 by { TooShort(data); }
    ParseIs(data);
    PathReads(data, 14, 8);
    var digis := if data[13] % 2 == 1 then [] else Path(data, 14, 8).0;
    var end := 14 + 7 * |digis|;
    var body := data[end..];
    BodyReads(AddressAt(data, 0), AddressAt(data, 7), digis, body);
    FlagAt(data, 0);
    var f := Parse(data).frame;
    var k := if HasPid(f.ftype) then 2 else 1;
    assert body[0] == data[end] && (k == 2 ==> body[1] == data[end + 1]);
    SliceOfRest(data, end, k, if |body| > k + 256 then k + 256 else |body|);
  }

  lemma SliceOfRest(data: seq<byte>, end: nat, i: nat, j: nat)
    requires end <= |data| && i <= j <= |data| - end
    ensures data[end..][i..j] == data[end + i..end + j]
  {
  }

  lemma TooShort(data: seq<byte>)
    ensures |data| < 15 ==> Parse(data) == Malformed
  {
  }

  /** The path that is read: the address fields up to the first with the extension bit, the eighth digipeater, or the
      last that is complete. */
  lemma ParsedPath(data: seq<byte>)
    requires Parse(data).Parsed?
    ensures var digis := Parse(data).frame.digipeaters;
            var n := |digis|;
            && |data| >= 15 + 7 * n
            && (data[13] % 2 == 1 ==> n == 0)
            && (data[13] % 2 == 0 ==> n == 8 || 14 + 7 * n + 7 > |data| || (n > 0 && data[7 + 7 * n + 6] % 2 == 1))
            && (forall i :: 0 <= i < n ==> digis[i] == AddressAt(data, 14 + 7 * i))
            && (forall i :: 0 <= i < n - 1 ==> data[14 + 7 * i + 6] % 2 == 0)
  {
    hide IdentifyType, Path, DecodedAddress, ParseBody, Parse, HasPid, AddressAt;
    ParsedReads(data);
    ParseIs(data);
    PathReads(data, 14, 8);
    var digis := if data[13] % 2 == 1 then [] else Path(data, 14, 8).0;
    BodyReads(AddressAt(data, 0), AddressAt(data, 7), digis, data[14 + 7 * |digis|..]);
    var n := |digis|;
    forall i | 0 <= i < n - 1 ensures data[14 + 7 * i + 6] % 2 == 0 {
      assert digis[i] == AddressAt(data, 14 + 7 * i);
      FlagAt(data, 14 + 7 * i);
    }
    if n > 0 {
      assert digis[n - 1] == AddressAt(data, 14 + 7 * (n - 1));
      FlagAt(data, 14 + 7 * (n - 1));
    }
  }

  lemma FlagAt(data: seq<byte>, at: nat)
    requires at + 7 <= |data|
    ensures AddressAt(data, at).last == (data[at + 6] % 2 == 1)
    ensures AddressAt(data, at).repeated == (data[at + 6] >= 128)
    ensures AddressAt(data, at).ssid == data[at + 6] / 2 % 16
  {
    hide Letters, CString;
  }

  /** Bytes are refused when they cannot hold two addresses and a control byte, or end before the control byte or before
      the PID of a frame that has one. */
  lemma MalformedExactly(data: seq<byte>)
    ensures Parse(data) == Malformed <==>
            || |data| < 15
            || (var end := if data[13] % 2 == 1 then 14 else Path(data, 14, 8).1;
                |data| == end || (|data| == end + 1 && HasPid(IdentifyType(data[end]))))
  {
    hide IdentifyType, Path, Letters, CString;
  }

  lemma PathFixed(digis: seq<Address>)
    ensures CarriedPath(digis) == digis <==>
            forall i :: 0 <= i < |digis| ==> Wired(digis[i]) && digis[i].last == (i == |digis| - 1)
  {
    hide Wired, Carried;
    forall i | 0 <= i < |digis|
      ensures CarriedPath(digis)[i] == digis[i] <==> Wired(digis[i]) && digis[i].last == (i == |digis| - 1)
    {
      AddressFixed(digis[i], digis[i].repeated, i == |digis| - 1);
    }
  }

  lemma AddressFixed(a: Address, repeated: bool, last: bool)
    ensures Carried(a.(last := last)).(repeated := repeated) == a <==>
            Wired(a) && a.repeated == repeated
            && a.last == last
    ensures Carried(a.(last := last)).repeated == a.repeated
    ensures Carried(a).(repeated := repeated, last := last) == a <==>
            Wired(a) && a.repeated == repeated
            && a.last == last
  {
    CarriedFields(a);
    CarriedFields(a.(last := last));
    ShownPlain(a.callsign);
  }

  /** The frame round trip, for every frame the source's arrays can hold, and exactly when it is the identity. */
  lemma FrameRoundTrip(f: Frame)
    requires |f.digipeaters| <= MAX_DIGIPEATERS && |f.payload| <= MAX_INFO_LEN
    ensures Parse(Built(f)) == Parsed(f) <==> Canonical(f)
  {
    hide Parse, Built, Wired, Carried, CarriedPath, IdentifyType;
    ParsedType(Built(f));
    if f.ftype == IdentifyType(f.control) {
      FrameCarried(f);
      AddressFixed(f.destination, false, false);
      AddressFixed(f.source, false, |f.digipeaters| == 0);
      PathFixed(f.digipeaters);
    }
  }
}

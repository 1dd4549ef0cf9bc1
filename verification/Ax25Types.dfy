/** The shared entities of the library: addresses, frames and the control byte.
    Bytes are integers below 256, and the bit operations of the source are written
    as the arithmetic they compute (`x >> 5` is `x / 32`, `x & 7` is `x % 8`). */
module Ax25Types {

  type byte = x: int | 0 <= x < 256

  /** A sequence number modulo 8. */
  type Seq8 = x: nat | x < 8

  const ADDRESS_LEN: nat := 7
  const MAX_DIGIPEATERS: nat := 8
  const MAX_INFO_LEN: nat := 256
  const BUFFER_SIZE: nat := ADDRESS_LEN * (2 + MAX_DIGIPEATERS) + 2 + MAX_INFO_LEN + 10

  const PID_NONE: byte := 0xF0

  /** A callsign is the C string stored in the source's array: at most six characters before its NUL. */
  type Callsign = s: seq<byte> | |s| <= 6 && 0 !in s

  datatype Code = OK | InvalidArg | InvalidSize | InvalidState | NoMem | InvalidResponse

  datatype Address = Address(callsign: Callsign, ssid: byte, repeated: bool, last: bool)

  /** `ax25_address_equals`: the H bit and the extension bit do not take part. */
  predicate SameStation(a: Address, b: Address) {
    a.callsign == b.callsign && a.ssid == b.ssid
  }

  /** The pieces of a stream, joined. */
  function Flatten<T>(pieces: seq<seq<T>>): seq<T> {
    if pieces == [] then [] else pieces[0] + Flatten(pieces[1..])
  }

  datatype FrameType = UI | I | S | U | Unknown

  datatype Frame = Frame(destination: Address, source: Address, digipeaters: seq<Address>,
                         isCommand: bool, ftype: FrameType, control: byte, pid: byte, payload: seq<byte>)

  predicate HasPid(t: FrameType) { t == I || t == UI }

  // ---- The control byte -------------------------------------------------------------

  predicate HasPf(control: byte) { (control / 16) % 2 == 1 }
  function ExtractNs(control: byte): Seq8 { (control / 2) % 8 }
  function ExtractNr(control: byte): Seq8 { control / 32 }
  function WithoutPf(control: byte): byte { if HasPf(control) then control - 16 else control }
  function SupervisoryBits(control: byte): byte { control % 16 }
  function PfBit(pf: bool): byte { if pf then 16 else 0 }

  const CTRL_UI: byte := 0x03
  const CTRL_RR: byte := 0x01
  const CTRL_RNR: byte := 0x05
  const CTRL_REJ: byte := 0x09

  function IControl(ns: Seq8, nr: Seq8, pf: bool): byte { 2 * ns + 32 * nr + PfBit(pf) }

  function SControl(mask: byte, nr: Seq8, pf: bool): byte
    requires mask < 16
  {
    mask + 32 * nr + PfBit(pf)
  }

  function IdentifyType(control: byte): FrameType {
    if control % 2 == 0 then I
    else if control % 4 == 1 then S
    else if WithoutPf(control) == CTRL_UI then UI
    else U
  }

  // ---- What the connected-mode state machine reads from a frame ----------------------

  datatype SupKind = RR | RNR | REJ | OtherS
  datatype UnnumKind = SABM | DISC | DM | UA | FRMR | OtherU

  datatype Pdu =
    | Info(ns: Seq8, nr: Seq8, pf: bool, payload: seq<byte>)
    | Sup(skind: SupKind, snr: Seq8, spf: bool, command: bool)
    | Unnum(ukind: UnnumKind, upf: bool)
    | NoPdu

  function SupKindOf(control: byte): SupKind {
    var s := SupervisoryBits(control);
    if s == CTRL_RR then RR else if s == CTRL_RNR then RNR else if s == CTRL_REJ then REJ else OtherS
  }

  function UnnumControl(k: UnnumKind): byte
    requires !k.OtherU?
  {
    match k
    case SABM => 0x2F
    case DISC => 0x43
    case DM => 0x0F
    case UA => 0x63
    case FRMR => 0x87
  }

  function UnnumKindOf(control: byte): UnnumKind {
    var u := WithoutPf(control);
    if u == UnnumControl(SABM) then SABM
    else if u == UnnumControl(DISC) then DISC
    else if u == UnnumControl(DM) then DM
    else if u == UnnumControl(UA) then UA
    else if u == UnnumControl(FRMR) then FRMR
    else OtherU
  }

  /** The state machine looks at `frame->type` first, then at bits of the control byte. */
  function PduOf(f: Frame): Pdu {
    var pf := HasPf(f.control);
    match f.ftype
    case I => Info(ExtractNs(f.control), ExtractNr(f.control), pf, f.payload)
    case S => Sup(SupKindOf(f.control), ExtractNr(f.control), pf, f.isCommand)
    case U => Unnum(UnnumKindOf(f.control), pf)
    case UI => NoPdu
    case Unknown => NoPdu
  }

  /** The control bytes of section 4.3 of AX.25 version 2.2, in numbers: which of them is which frame. */
  lemma ControlOctets(f: Frame)
    ensures var b := f.control;
            && IdentifyType(b) == (if b % 2 == 0 then I else if b % 4 == 1 then S
                                   else if b in {0x03, 0x13} then UI else U)
            && (f.ftype == I ==> PduOf(f) == Info(b / 2 % 8, b / 32, b / 16 % 2 == 1, f.payload))
            && (f.ftype == S ==> PduOf(f) == Sup(if b % 16 == 1 then RR else if b % 16 == 5 then RNR
                                     else if b % 16 == 9 then REJ else OtherS, b / 32, b / 16 % 2 == 1, f.isCommand))
            && (f.ftype == U ==> PduOf(f) == Unnum(if b in {0x2F, 0x3F} then SABM else if b in {0x43, 0x53} then DISC
                                     else if b in {0x0F, 0x1F} then DM else if b in {0x63, 0x73} then UA
                                     else if b in {0x87, 0x97} then FRMR else OtherU, b / 16 % 2 == 1))
            && (f.ftype == UI || f.ftype == Unknown ==> PduOf(f) == NoPdu)
  {
  }

  // ---- Every control byte that is built reads back ---------------------------------------------

  lemma IControlFields(ns: Seq8, nr: Seq8, pf: bool)
    ensures var b := IControl(ns, nr, pf);
            IdentifyType(b) == I && ExtractNs(b) == ns && ExtractNr(b) == nr
            && HasPf(b) == pf
  {
    var b: int := IControl(ns, nr, pf);
    var p: int := if pf then 1 else 0;
    assert b == 32 * nr + 16 * p + 2 * ns;
    assert b / 32 == nr && b / 16 == 2 * nr + p && b / 2 == 16 * nr + 8 * p + ns;
  }

  lemma SControlFields(mask: byte, nr: Seq8, pf: bool)
    requires mask == CTRL_RR || mask == CTRL_RNR || mask == CTRL_REJ
    ensures var b := SControl(mask, nr, pf);
            IdentifyType(b) == S && SupervisoryBits(b) == mask && ExtractNr(b) == nr && HasPf(b) == pf
  {
  }

  lemma UControlFields(k: UnnumKind, pf: bool)
    requires !k.OtherU?
    ensures !HasPf(UnnumControl(k)) && UnnumControl(k) + PfBit(pf) < 256
    ensures var b := UnnumControl(k) + PfBit(pf); IdentifyType(b) == U && UnnumKindOf(b) == k && HasPf(b) == pf
  {
  }
}

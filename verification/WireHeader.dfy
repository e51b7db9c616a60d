/**
 The twelve header bytes.  Every setter is the update of one field of the view,
 except SetMessageType, which only ever sets its bit.  The arithmetic used here
 is that of the source's masks and shifts, as the last lemmas show.
 */
module WireHeader {
  import opened WireBytes

  const MAGIC: byte := 0x08

  predicate IsHeader(h: Bytes) {
    |h| == 12
  }

  /** What the getters return; low is the part of byte 3 that no accessor touches. */
  datatype View = View(
    version: byte, messageType: nat, heartbeat: bool, oneway: bool, compressType: nat, statusType: nat,
    serializeType: nat, low: nat, seqNo: nat)

  function MessageTypeOf(b: byte): nat { b / 128 }

  function HeartbeatOf(b: byte): bool { b / 64 % 2 == 1 }

  function OnewayOf(b: byte): bool { b / 32 % 2 == 1 }

  function CompressTypeOf(b: byte): nat { b % 32 / 4 }

  function StatusTypeOf(b: byte): nat { b % 4 }

  function SerializeTypeOf(b: byte): nat { b / 16 }

  function CompressType(h: Bytes): (ct: nat)
    requires IsHeader(h)
    ensures ct < 8
  {
    CompressTypeOf(h[2])
  }

  function SeqOf(h: Bytes): nat
    requires IsHeader(h)
  {
    Get32(h, 4) * TWO_32 + Get32(h, 8)
  }

  function ViewOf(h: Bytes): View
    requires IsHeader(h)
  {
    View(h[1], MessageTypeOf(h[2]), HeartbeatOf(h[2]), OnewayOf(h[2]), CompressTypeOf(h[2]), StatusTypeOf(h[2]),
         SerializeTypeOf(h[3]), h[3] % 16, SeqOf(h))
  }

  /** Byte 2 from its five fields. */
  function FlagByte(mt: nat, hb: bool, ow: bool, ct: nat, st: nat): (b: byte)
    requires mt < 2 && ct < 8 && st < 4
  {
    mt * 128 + (if hb then 64 else 0) + (if ow then 32 else 0) + ct * 4 + st
  }

  lemma FlagByteParts(mt: nat, hb: bool, ow: bool, ct: nat, st: nat)
    requires mt < 2 && ct < 8 && st < 4
    ensures var b := FlagByte(mt, hb, ow, ct, st);
            && MessageTypeOf(b) == mt && HeartbeatOf(b) == hb && OnewayOf(b) == ow
            && CompressTypeOf(b) == ct && StatusTypeOf(b) == st
  {
    var b := FlagByte(mt, hb, ow, ct, st);
    var low := ct * 4 + st;
    var top := mt * 4 + (if hb then 2 else 0) + (if ow then 1 else 0);
    assert b == top * 32 + low && b / 32 == top && b % 32 == low;
    assert b / 64 == top / 2 && b / 128 == top / 4;
  }

  lemma FlagByteWhole(b: byte)
    ensures MessageTypeOf(b) < 2 && CompressTypeOf(b) < 8 && StatusTypeOf(b) < 4
    ensures FlagByte(MessageTypeOf(b), HeartbeatOf(b), OnewayOf(b), CompressTypeOf(b), StatusTypeOf(b)) == b
  {
    assert b == b / 32 * 32 + b % 32 && b % 32 == b % 32 / 4 * 4 + b % 4;
    assert b / 32 == b / 64 * 2 + b / 32 % 2 && b / 64 == b / 128 * 2 + b / 64 % 2;
  }

  // ---------------------------------------------------------------- setters, on the byte they change

  function WithMessageType(b: byte, mt: byte): byte {
    FlagByte(if mt % 2 == 1 then 1 else MessageTypeOf(b),
             HeartbeatOf(b), OnewayOf(b), CompressTypeOf(b), StatusTypeOf(b))
  }

  function WithHeartbeat(b: byte, on: bool): byte {
    FlagByte(MessageTypeOf(b), on, OnewayOf(b), CompressTypeOf(b), StatusTypeOf(b))
  }

  function WithOneway(b: byte, on: bool): byte {
    FlagByte(MessageTypeOf(b), HeartbeatOf(b), on, CompressTypeOf(b), StatusTypeOf(b))
  }

  function WithCompressType(b: byte, ct: byte): byte {
    FlagByte(MessageTypeOf(b), HeartbeatOf(b), OnewayOf(b), ct % 8, StatusTypeOf(b))
  }

  function WithStatusType(b: byte, st: byte): byte {
    FlagByte(MessageTypeOf(b), HeartbeatOf(b), OnewayOf(b), CompressTypeOf(b), st % 4)
  }

  function WithSerializeType(b: byte, st: byte): byte { b % 16 + st % 16 * 16 }

  function SetCompressTypeOf(h: Bytes, ct: byte): (r: Bytes)
    requires IsHeader(h)
    ensures IsHeader(r)
  {
    h[2 := WithCompressType(h[2], ct)]
  }

  method SetVersion(h: array<byte>, v: byte)
    requires h.Length == 12
    modifies h
    ensures ViewOf(h[..]) == ViewOf(old(h[..])).(version := v) && h[0] == old(h[0])
  {
    h[1] := v;
  }

  /** Only ever sets the bit: a response stays a response. */
  method SetMessageType(h: array<byte>, mt: byte)
    requires h.Length == 12
    modifies h
    ensures var v := ViewOf(old(h[..]));
            ViewOf(h[..]) == v.(messageType := if v.messageType == 1 then 1 else mt % 2) && h[0] == old(h[0])
  {
    FlagByteParts(if mt % 2 == 1 then 1 else MessageTypeOf(h[2]), HeartbeatOf(h[2]), OnewayOf(h[2]),
                  CompressTypeOf(h[2]), StatusTypeOf(h[2]));
    h[2] := WithMessageType(h[2], mt);
  }

  method SetHeartbeat(h: array<byte>, on: bool)
    requires h.Length == 12
    modifies h
    ensures ViewOf(h[..]) == ViewOf(old(h[..])).(heartbeat := on) && h[0] == old(h[0])
  {
    FlagByteParts(MessageTypeOf(h[2]), on, OnewayOf(h[2]), CompressTypeOf(h[2]), StatusTypeOf(h[2]));
    h[2] := WithHeartbeat(h[2], on);
  }

  method SetOneway(h: array<byte>, on: bool)
    requires h.Length == 12
    modifies h
    ensures ViewOf(h[..]) == ViewOf(old(h[..])).(oneway := on) && h[0] == old(h[0])
  {
    FlagByteParts(MessageTypeOf(h[2]), HeartbeatOf(h[2]), on, CompressTypeOf(h[2]), StatusTypeOf(h[2]));
    h[2] := WithOneway(h[2], on);
  }

  method SetCompressType(h: array<byte>, ct: byte)
    requires h.Length == 12
    modifies h
    ensures h[..] == SetCompressTypeOf(old(h[..]), ct)
    ensures ViewOf(h[..]) == ViewOf(old(h[..])).(compressType := ct % 8) && h[0] == old(h[0])
  {
    FlagByteParts(MessageTypeOf(h[2]), HeartbeatOf(h[2]), OnewayOf(h[2]), ct % 8, StatusTypeOf(h[2]));
    h[2] := WithCompressType(h[2], ct);
  }

  method SetMessageStatusType(h: array<byte>, st: byte)
    requires h.Length == 12
    modifies h
    ensures ViewOf(h[..]) == ViewOf(old(h[..])).(statusType := st % 4) && h[0] == old(h[0])
  {
    FlagByteParts(MessageTypeOf(h[2]), HeartbeatOf(h[2]), OnewayOf(h[2]), CompressTypeOf(h[2]), st % 4);
    h[2] := WithStatusType(h[2], st);
  }

  method SetSerializeType(h: array<byte>, st: byte)
    requires h.Length == 12
    modifies h
    ensures ViewOf(h[..]) == ViewOf(old(h[..])).(serializeType := st % 16) && h[0] == old(h[0])
  {
    h[3] := WithSerializeType(h[3], st);
  }

  method SetSeq(h: array<byte>, id: nat)
    requires h.Length == 12 && id < TWO_32 * TWO_32
    modifies h
    ensures ViewOf(h[..]) == ViewOf(old(h[..])).(seqNo := id) && h[0] == old(h[0])
  {
    var hi, lo := Put32(id / TWO_32), Put32(id % TWO_32);
    h[4], h[5], h[6], h[7] := hi[0], hi[1], hi[2], hi[3];
    h[8], h[9], h[10], h[11] := lo[0], lo[1], lo[2], lo[3];
    PutGet32(id / TWO_32);
    PutGet32(id % TWO_32);
    assert h[..][4..8] == hi && h[..][8..12] == lo;
    Get32Slice(h[..], 4, 8, 0);
    Get32Slice(h[..], 8, 12, 0);
  }

  /** Setting the message type works exactly if the bit was clear or is to be set. */
  lemma SetMessageTypeWorksIff(b: byte, mt: byte)
    requires mt < 2
    ensures MessageTypeOf(WithMessageType(b, mt)) == mt <==> MessageTypeOf(b) == 0 || mt == 1
  {
  }

  /** For one, a response cannot be turned back into a request. */
  lemma ResponseStaysResponse()
    ensures MessageTypeOf(WithMessageType(128, 0)) == 1
  {
  }

  /** The magic byte and the view are all there is in a header. */
  lemma ViewDetermines(h: Bytes, h': Bytes)
    requires IsHeader(h) && IsHeader(h') && h[0] == h'[0] && ViewOf(h) == ViewOf(h')
    ensures h == h'
  {
    assert Get32(h, 4) == Get32(h', 4) && Get32(h, 8) == Get32(h', 8) by {
      SameParts(Get32(h, 4), Get32(h, 8), Get32(h', 4), Get32(h', 8));
    }
    GetPut32(h, 4);
    GetPut32(h', 4);
    GetPut32(h, 8);
    GetPut32(h', 8);
    SameFlags(h[2], h'[2]);
    assert h == h[..4] + h[4..8] + h[8..12] && h' == h'[..4] + h'[4..8] + h'[8..12];
    assert h[..4] == h'[..4];
  }

  lemma SameParts(a: nat, b: nat, a': nat, b': nat)
    requires b < TWO_32 && b' < TWO_32 && a * TWO_32 + b == a' * TWO_32 + b'
    ensures a == a' && b == b'
  {
  }

  lemma SameFlags(b: byte, b': byte)
    requires MessageTypeOf(b) == MessageTypeOf(b') && HeartbeatOf(b) == HeartbeatOf(b') && OnewayOf(b) == OnewayOf(b')
    requires CompressTypeOf(b) == CompressTypeOf(b') && StatusTypeOf(b) == StatusTypeOf(b')
    ensures b == b'
  {
    FlagByteWhole(b);
    FlagByteWhole(b');
  }

  // ---------------------------------------------------------------- the bit arithmetic of the source

  lemma MessageTypeBits(b: bv8)
    ensures MessageTypeOf(b as nat) == ((b & 0x80) >> 7) as nat
  {
  }

  lemma HeartbeatBits(b: bv8)
    ensures HeartbeatOf(b as nat) <==> b & 0x40 == 0x40
  {
  }

  lemma OnewayBits(b: bv8)
    ensures OnewayOf(b as nat) <==> b & 0x20 == 0x20
  {
  }

  lemma CompressBits(b: bv8)
    ensures CompressTypeOf(b as nat) == ((b & 0x1C) >> 2) as nat
  {
  }

  lemma StatusBits(b: bv8)
    ensures StatusTypeOf(b as nat) == (b & 0x03) as nat
  {
  }

  lemma SerializeBits(b: bv8)
    ensures SerializeTypeOf(b as nat) == ((b & 0xF0) >> 4) as nat
  {
  }

  // Bytes that agree under a getter's mask agree in that field.

  lemma SameMessageType(b: bv8, r: bv8)
    requires r & 0x80 == b & 0x80
    ensures MessageTypeOf(r as nat) == MessageTypeOf(b as nat)
  {
    MessageTypeBits(b);
    MessageTypeBits(r);
  }

  lemma SameHeartbeat(b: bv8, r: bv8)
    requires r & 0x40 == b & 0x40
    ensures HeartbeatOf(r as nat) == HeartbeatOf(b as nat)
  {
    HeartbeatBits(b);
    HeartbeatBits(r);
  }

  lemma SameOneway(b: bv8, r: bv8)
    requires r & 0x20 == b & 0x20
    ensures OnewayOf(r as nat) == OnewayOf(b as nat)
  {
    OnewayBits(b);
    OnewayBits(r);
  }

  lemma SameCompressType(b: bv8, r: bv8)
    requires r & 0x1C == b & 0x1C
    ensures CompressTypeOf(r as nat) == CompressTypeOf(b as nat)
  {
    CompressBits(b);
    CompressBits(r);
  }

  lemma SameStatusType(b: bv8, r: bv8)
    requires r & 0x03 == b & 0x03
    ensures StatusTypeOf(r as nat) == StatusTypeOf(b as nat)
  {
    StatusBits(b);
    StatusBits(r);
  }

  lemma LowBits(b: bv8)
    ensures (b & 0x07) as nat == (b as nat) % 8
  {
  }

  lemma LowTwoBits(b: bv8)
    ensures (b & 0x03) as nat == (b as nat) % 4
  {
  }

  lemma LowBit(b: bv8)
    ensures b & 0x01 == 0x01 <==> (b as nat) % 2 == 1
  {
  }

  lemma Nibbles(b: bv8)
    ensures (b & 0x0F) as nat == (b as nat) % 16 && (b >> 4) as nat == (b as nat) / 16
  {
  }

  /** A byte with these fields is this byte. */
  lemma FromFields(r: bv8, mt: nat, hb: bool, ow: bool, ct: nat, st: nat)
    requires MessageTypeOf(r as nat) == mt && HeartbeatOf(r as nat) == hb && OnewayOf(r as nat) == ow
    requires CompressTypeOf(r as nat) == ct && StatusTypeOf(r as nat) == st
    ensures mt < 2 && ct < 8 && st < 4 && r as nat == FlagByte(mt, hb, ow, ct, st)
  {
    FlagByteWhole(r as nat);
  }

  // Each setter is the source's mask, shift and or.

  /** Or-ing the type in leaves the other fields alone ... */
  lemma OrKeepsOthers(b: bv8, r: bv8, mt: bv8)
    requires r == b | (mt << 7)
    ensures HeartbeatOf(r as nat) == HeartbeatOf(b as nat) && OnewayOf(r as nat) == OnewayOf(b as nat)
    ensures CompressTypeOf(r as nat) == CompressTypeOf(b as nat) && StatusTypeOf(r as nat) == StatusTypeOf(b as nat)
  {
    SameHeartbeat(b, r);
    SameOneway(b, r);
    SameCompressType(b, r);
    SameStatusType(b, r);
  }

  /** ... and sets the bit, if it is to be set. */
  lemma OrSetsType(b: bv8, r: bv8, mt: bv8)
    requires r == b | (mt << 7)
    ensures MessageTypeOf(r as nat) == if (mt as nat) % 2 == 1 then 1 else MessageTypeOf(b as nat)
  {
    LowBit(mt);
    if mt & 0x01 == 0x01 {
      SameMessageType(0x80, r);
      MessageTypeBits(0x80);
    } else {
      SameMessageType(b, r);
    }
  }

  lemma SetMessageTypeBits(b: bv8, r: bv8, mt: bv8)
    requires r == b | (mt << 7)
    ensures r as nat == WithMessageType(b as nat, mt as nat)
  {
    OrKeepsOthers(b, r, mt);
    OrSetsType(b, r, mt);
    TypeSet(b as nat, r as nat, mt as nat);
  }

  lemma TypeSet(b: byte, r: byte, mt: byte)
    requires MessageTypeOf(r) == if mt % 2 == 1 then 1 else MessageTypeOf(b)
    requires HeartbeatOf(r) == HeartbeatOf(b) && OnewayOf(r) == OnewayOf(b)
    requires CompressTypeOf(r) == CompressTypeOf(b) && StatusTypeOf(r) == StatusTypeOf(b)
    ensures r == WithMessageType(b, mt)
  {
    FlagByteWhole(r);
  }

  lemma SetHeartbeatBits(b: bv8, r: bv8, on: bool)
    requires r == if on then b | 0x40 else b & !0x40
    ensures r as nat == WithHeartbeat(b as nat, on)
  {
    SameMessageType(b, r);
    SameOneway(b, r);
    SameCompressType(b, r);
    SameStatusType(b, r);
    HeartbeatBits(r);
    FromFields(r, MessageTypeOf(b as nat), on, OnewayOf(b as nat), CompressTypeOf(b as nat), StatusTypeOf(b as nat));
  }

  lemma SetOnewayBits(b: bv8, r: bv8, on: bool)
    requires r == if on then b | 0x20 else b & !0x20
    ensures r as nat == WithOneway(b as nat, on)
  {
    SameMessageType(b, r);
    SameHeartbeat(b, r);
    SameCompressType(b, r);
    SameStatusType(b, r);
    OnewayBits(r);
    FromFields(r, MessageTypeOf(b as nat), HeartbeatOf(b as nat), on, CompressTypeOf(b as nat), StatusTypeOf(b as nat));
  }

  lemma SetCompressTypeBits(b: bv8, r: bv8, ct: bv8)
    requires r == (b & !0x1C) | ((ct << 2) & 0x1C)
    ensures r as nat == WithCompressType(b as nat, ct as nat)
  {
    SameMessageType(b, r);
    SameHeartbeat(b, r);
    SameOneway(b, r);
    SameStatusType(b, r);
    CompressBits(r);
    assert (r & 0x1C) >> 2 == ct & 0x07;
    LowBits(ct);
    FromFields(r, MessageTypeOf(b as nat), HeartbeatOf(b as nat), OnewayOf(b as nat), (ct as nat) % 8,
               StatusTypeOf(b as nat));
  }

  lemma SetStatusTypeBits(b: bv8, r: bv8, st: bv8)
    requires r == (b & !0x03) | (st & 0x03)
    ensures r as nat == WithStatusType(b as nat, st as nat)
  {
    SameMessageType(b, r);
    SameHeartbeat(b, r);
    SameOneway(b, r);
    SameCompressType(b, r);
    StatusBits(r);
    assert r & 0x03 == st & 0x03;
    LowTwoBits(st);
    FromFields(r, MessageTypeOf(b as nat), HeartbeatOf(b as nat), OnewayOf(b as nat), CompressTypeOf(b as nat),
               (st as nat) % 4);
  }

  lemma SetSerializeTypeBits(b: bv8, r: bv8, st: bv8)
    requires r == (b & !0xF0) | (st << 4)
    ensures r as nat == WithSerializeType(b as nat, st as nat)
  {
    Nibbles(b);
    Nibbles(r);
    Nibbles(st);
    assert r & 0x0F == b & 0x0F && r >> 4 == st & 0x0F;
  }
}

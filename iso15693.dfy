/**
 * The ISO/IEC 15693-3 command layer: Get System Information, Get Extended System Information
 * (with the supported-command bitmap and the crypto-suite list), Read Single Block and Fast
 * Extended Read Multiple Blocks.
 *
 * Responses reach this layer without their flags byte (the exchange strips it), so byte 0 of
 * a system-information answer is the info-flags byte.  The decoders walk the answer with a
 * cursor, one conditionally present field after another; each decoding method is proved
 * equal to a functional specification that takes the same fields off the front of the answer.
 */
module Iso15693 {
  import opened Errors
  import opened Bytes
  import opened Reader

  // Request flags
  const FlagDataRate: bv8 := 0x02
  const FlagOption: bv8 := 0x40

  // Command codes
  const CmdSystemInfo: bv8 := 0x2B
  const CmdExtendedSystemInfo: bv8 := 0x3B
  const CmdReadSingleBlock: bv8 := 0x20
  const CmdFastExtReadMultipleBlocks: bv8 := 0x3D

  // Info flags of a system-information answer
  const InfoDsfid: bv8 := 0x01
  const InfoAfi: bv8 := 0x02
  const InfoMemorySize: bv8 := 0x04
  const InfoIcReference: bv8 := 0x08
  const InfoMoi: bv8 := 0x10
  const InfoCommandList: bv8 := 0x20
  const InfoCsi: bv8 := 0x40
  const InfoLength: bv8 := 0x80

  /** The UID starts after the flags byte and the optional fields after the UID. */
  const FieldsStart: nat := 9

  // ---------------------------------------------------------------------------------------
  // Records

  /** Application family identifier, split into its two nibbles. */
  datatype Afi = Afi(family: bv8, subFamily: bv8)

  /** Memory geometry: both counts are sent as (value - 1). */
  datatype MemorySize = MemorySize(numBlocks: int, blockSize: int, memory: int)

  datatype SystemInfo = SystemInfo(
    uid: seq<bv8>,
    dsfid: Option<bv8>,
    afi: Option<Afi>,
    memorySize: Option<MemorySize>,
    icRef: Option<bv8>)

  /** A crypto suite identifier, classified by its high bits (ISO/IEC 29167 and others). */
  datatype Csi =
    | Iso29167(suite: bv8)       // class 00xxxxxx: suite number within ISO/IEC 29167
    | Manufacturer(id: bv8)      // class 1101xxxx
    | Gs1(id: bv8)               // class 1110xxxx
    | Rfu(raw: bv8)              // anything else

  datatype ExtendedSystemInfo = ExtendedSystemInfo(
    base: SystemInfo,
    moi: Option<bv8>,
    commandList: Option<seq<bv8>>,
    csi: Option<seq<Csi>>)

  /** The security status bit and the data of one block of a multiple-block read. */
  datatype Block = Block(data: seq<bv8>, locked: bv8)

  /** The answer of Read Single Block: the whole answer and the lock bit of its first byte. */
  datatype SingleBlock = SingleBlock(data: seq<bv8>, locked: bv8)

  // ---------------------------------------------------------------------------------------
  // Field decoders
  //
  // The specifications consume the answer from the front: each optional field takes its
  // bytes off the remainder when its flag is set, which is the cursor of the source seen
  // from the other end (the cursor is the length already consumed).

  /** An optional field of `width` bytes at the head of `t`, and the remainder after it. */
  function Take(t: seq<bv8>, width: nat, present: bool): (r: Result<(Option<seq<bv8>>, seq<bv8>)>)
    ensures r.Success? <==> !present || width <= |t|
    ensures r.Success? && present ==> r.value == (Some(t[..width]), t[width..])
    ensures r.Success? && !present ==> r.value == (None, t)
    ensures r.Failure? ==> r.error == IndexOutOfRange
  {
    if !present then Success((None, t))
    else if width <= |t| then Success((Some(t[..width]), t[width..]))
    else Failure(IndexOutOfRange)
  }

  /** The bytes an optional field contributes to an answer. */
  function FieldBytes(field: Option<seq<bv8>>): seq<bv8> {
    if field.Some? then field.value else []
  }

  lemma TakeField(field: Option<seq<bv8>>, width: nat, rest: seq<bv8>)
    requires field.Some? ==> |field.value| == width
    ensures Take(FieldBytes(field) + rest, width, field.Some?) == Success((field, rest))
  {
    var t := FieldBytes(field) + rest;
    if field.Some? {
      assert t == field.value + rest;
      assert t[..width] == field.value;
      assert t[width..] == rest;
      assert Take(t, width, true) == Success((Some(t[..width]), t[width..]));
    } else {
      assert t == rest;
    }
  }

  function AfiOf(b: bv8): (a: Afi)
    ensures a.family < 16 && a.subFamily < 16
    ensures (a.family << 4) | a.subFamily == b
  {
    Afi((b & 0xF0) >> 4, b & 0x0F)
  }

  /** Block size from the low five bits of its byte, plus one; memory is their product. */
  function MemorySizeOf(numBlocks: int, sizeByte: bv8): (m: MemorySize)
    ensures m.numBlocks == numBlocks
    ensures 1 <= m.blockSize <= 32 && m.blockSize == (sizeByte % 32) as int + 1
    ensures m.memory == m.blockSize * m.numBlocks
  {
    var blockSize := (sizeByte & 0x1F) as int + 1;
    MemorySize(numBlocks, blockSize, blockSize * numBlocks)
  }

  function ByteField(field: Option<seq<bv8>>): Option<bv8>
    requires field.Some? ==> |field.value| == 1
  {
    if field.Some? then Some(field.value[0]) else None
  }

  function AfiField(field: Option<seq<bv8>>): Option<Afi>
    requires field.Some? ==> |field.value| == 1
  {
    if field.Some? then Some(AfiOf(field.value[0])) else None
  }

  /** Basic memory size: one count byte, then the size byte. */
  function MemoryField(field: Option<seq<bv8>>): (m: Option<MemorySize>)
    requires field.Some? ==> |field.value| == 2
    ensures m.Some? ==> 1 <= m.value.numBlocks <= 256
  {
    if field.Some? then Some(MemorySizeOf(field.value[0] as int + 1, field.value[1])) else None
  }

  /** The number of bytes the optional fields of `get_system_info` occupy. */
  function FieldsLength(flags: bv8): nat {
    (if flags & InfoDsfid != 0 then 1 else 0) + (if flags & InfoAfi != 0 then 1 else 0)
    + (if flags & InfoMemorySize != 0 then 2 else 0) + (if flags & InfoIcReference != 0 then 1 else 0)
  }

  // ---------------------------------------------------------------------------------------
  // Get System Information

  function SystemInfoFrame(): seq<bv8> {
    [FlagDataRate, CmdSystemInfo]
  }

  /**
   * The decoded answer.  Fields follow the UID in a fixed order, each present only when its
   * flag bit is set.  The UID is the reversal of bytes 1..8 (shorter when the answer is).
   */
  function SystemInfoOf(data: seq<bv8>): (r: Result<SystemInfo>)
    ensures r.Success? <==>
      |data| > 0 && (FieldsLength(data[0]) == 0 || FieldsStart + FieldsLength(data[0]) <= |data|)
    ensures r.Failure? ==> r.error == IndexOutOfRange
    ensures r.Success? ==> r.value.uid == Reverse(Slice(data, 1, 9))
    ensures r.Success? ==> (r.value.dsfid.Some? <==> data[0] & InfoDsfid != 0)
    ensures r.Success? ==> (r.value.afi.Some? <==> data[0] & InfoAfi != 0)
    ensures r.Success? ==> (r.value.memorySize.Some? <==> data[0] & InfoMemorySize != 0)
    ensures r.Success? ==> (r.value.icRef.Some? <==> data[0] & InfoIcReference != 0)
    ensures r.Success? && r.value.memorySize.Some? ==> 1 <= r.value.memorySize.value.numBlocks <= 256
  {
    var flags :- ByteAt(data, 0);
    var dsfid :- Take(Slice(data, FieldsStart, |data|), 1, flags & InfoDsfid != 0);
    var afi :- Take(dsfid.1, 1, flags & InfoAfi != 0);
    var memory :- Take(afi.1, 2, flags & InfoMemorySize != 0);
    var icRef :- Take(memory.1, 1, flags & InfoIcReference != 0);
    Success(SystemInfo(Reverse(Slice(data, 1, 9)), ByteField(dsfid.0), AfiField(afi.0),
                       MemoryField(memory.0), ByteField(icRef.0)))
  }

  /** The cursor seen from the other end: taking a field off `data[index..]`. */
  lemma TakeAt(data: seq<bv8>, index: nat, width: nat, present: bool)
    requires width >= 1
    ensures Take(Slice(data, index, |data|), width, present) ==
      if !present then Success((None, Slice(data, index, |data|)))
      else if index + width <= |data| then Success((Some(data[index..index + width]), Slice(data, index + width, |data|)))
      else Failure(IndexOutOfRange)
  {
    var t := Slice(data, index, |data|);
    if present && index + width <= |data| {
      assert t == data[index..];
      assert t[..width] == data[index..index + width];
      assert t[width..] == Slice(data, index + width, |data|);
    }
  }

  /** `get_system_info`'s decoding, with its cursor. */
  method DecodeSystemInfo(data: seq<bv8>) returns (r: Result<SystemInfo>)
    ensures r == SystemInfoOf(data)
  {
    if |data| == 0 {
      return Failure(IndexOutOfRange);
    }
    var flags := data[0];
    var uid := Reverse(Slice(data, 1, 9));
    var index := FieldsStart;
    var dsfid: Option<bv8> := None;
    var afi: Option<Afi> := None;
    var memorySize: Option<MemorySize> := None;
    var icRef: Option<bv8> := None;
    TakeAt(data, index, 1, flags & InfoDsfid != 0);
    ghost var s1 := Take(Slice(data, index, |data|), 1, flags & InfoDsfid != 0);
    if flags & InfoDsfid != 0 {
      if index >= |data| {
        return Failure(IndexOutOfRange);
      }
      dsfid := Some(data[index]);
      index := index + 1;
    }
    TakeAt(data, index, 1, flags & InfoAfi != 0);
    ghost var s2 := Take(s1.value.1, 1, flags & InfoAfi != 0);
    if flags & InfoAfi != 0 {
      if index >= |data| {
        return Failure(IndexOutOfRange);
      }
      afi := Some(AfiOf(data[index]));
      index := index + 1;
    }
    TakeAt(data, index, 2, flags & InfoMemorySize != 0);
    ghost var s3 := Take(s2.value.1, 2, flags & InfoMemorySize != 0);
    if flags & InfoMemorySize != 0 {
      if index >= |data| {
        return Failure(IndexOutOfRange);
      }
      var numBlocks := data[index] as int + 1;
      index := index + 1;
      if index >= |data| {
        return Failure(IndexOutOfRange);
      }
      memorySize := Some(MemorySizeOf(numBlocks, data[index]));
      index := index + 1;
    }
    assert MemoryField(s3.value.0) == memorySize;
    TakeAt(data, index, 1, flags & InfoIcReference != 0);
    if flags & InfoIcReference != 0 {
      if index >= |data| {
        return Failure(IndexOutOfRange);
      }
      icRef := Some(data[index]);
      index := index + 1;
    }
    r := Success(SystemInfo(uid, dsfid, afi, memorySize, icRef));
  }

  /** The example answer with every basic field present. */
  lemma SystemInfoExample(uidOnWire: seq<bv8>)
    requires |uidOnWire| == 8
    ensures var r := SystemInfoOf([0x0F] + uidOnWire + [0x01, 0x00, 0x0F, 0x03, 0x02]);
      r.Success? && r.value.uid == Reverse(uidOnWire)
      && r.value.dsfid == Some(1) && r.value.afi == Some(Afi(0, 0))
      && r.value.memorySize == Some(MemorySize(16, 4, 64)) && r.value.icRef == Some(2)
  {
    var data := [0x0F] + uidOnWire + [0x01, 0x00, 0x0F, 0x03, 0x02];
    var fields: seq<bv8> := [0x01, 0x00, 0x0F, 0x03, 0x02];
    assert Slice(data, 1, 9) == uidOnWire;
    assert Slice(data, FieldsStart, |data|) == fields;
    assert data[0] == 0x0F;
    var f1: seq<bv8>, f2: seq<bv8>, f4: seq<bv8> := [0x00, 0x0F, 0x03, 0x02], [0x0F, 0x03, 0x02], [0x02];
    assert fields[..1] == [0x01] && fields[1..] == f1;
    assert f1[..1] == [0x00] && f1[1..] == f2;
    assert f2[..2] == [0x0F, 0x03] && f2[2..] == f4;
    assert f4[..1] == [0x02] && f4[1..] == [];
    assert MemoryField(Some([0x0F, 0x03])) == Some(MemorySize(16, 4, 64));
  }

  // ---------------------------------------------------------------------------------------
  // An encoder for system-information answers, the partner of the decoder

  predicate WellFormedSystemInfo(info: SystemInfo) {
    |info.uid| == 8
    && (info.afi.Some? ==> info.afi.value.family < 16 && info.afi.value.subFamily < 16)
    && (info.memorySize.Some? ==>
          var m := info.memorySize.value;
          1 <= m.numBlocks <= 256 && 1 <= m.blockSize <= 32 && m.memory == m.blockSize * m.numBlocks)
  }

  function InfoFlagsOf(info: SystemInfo): (flags: bv8)
    ensures flags & InfoDsfid != 0 <==> info.dsfid.Some?
    ensures flags & InfoAfi != 0 <==> info.afi.Some?
    ensures flags & InfoMemorySize != 0 <==> info.memorySize.Some?
    ensures flags & InfoIcReference != 0 <==> info.icRef.Some?
    ensures flags & 0xF0 == 0
  {
    (if info.dsfid.Some? then InfoDsfid else 0) | (if info.afi.Some? then InfoAfi else 0)
    | (if info.memorySize.Some? then InfoMemorySize else 0) | (if info.icRef.Some? then InfoIcReference else 0)
  }

  function DsfidBytes(info: SystemInfo): (f: Option<seq<bv8>>)
    ensures f.Some? ==> |f.value| == 1
  {
    if info.dsfid.Some? then Some([info.dsfid.value]) else None
  }

  function AfiBytes(info: SystemInfo): (f: Option<seq<bv8>>)
    ensures f.Some? ==> |f.value| == 1
  {
    if info.afi.Some? then Some([(info.afi.value.family << 4) | info.afi.value.subFamily]) else None
  }

  function MemoryBytes(info: SystemInfo): (f: Option<seq<bv8>>)
    requires WellFormedSystemInfo(info)
    ensures f.Some? ==> |f.value| == 2
  {
    if info.memorySize.Some?
    then Some([ToByte(info.memorySize.value.numBlocks - 1), ToByte(info.memorySize.value.blockSize - 1)])
    else None
  }

  function IcRefBytes(info: SystemInfo): (f: Option<seq<bv8>>)
    ensures f.Some? ==> |f.value| == 1
  {
    if info.icRef.Some? then Some([info.icRef.value]) else None
  }

  /** The answer a tag sends for `info`: flags, the UID reversed, then the present fields. */
  function SystemInfoBytes(info: SystemInfo): (data: seq<bv8>)
    requires WellFormedSystemInfo(info)
  {
    [InfoFlagsOf(info)] + Reverse(info.uid)
    + (FieldBytes(DsfidBytes(info)) + (FieldBytes(AfiBytes(info))
    + (FieldBytes(MemoryBytes(info)) + FieldBytes(IcRefBytes(info)))))
  }

  lemma AfiRoundTrip(a: Afi)
    requires a.family < 16 && a.subFamily < 16
    ensures AfiOf((a.family << 4) | a.subFamily) == a
  {
  }

  lemma MemorySizeRoundTrip(m: MemorySize)
    requires 1 <= m.numBlocks <= 256 && 1 <= m.blockSize <= 32 && m.memory == m.blockSize * m.numBlocks
    ensures MemorySizeOf(ToByte(m.numBlocks - 1) as int + 1, ToByte(m.blockSize - 1)) == m
  {
    var b := ToByte(m.blockSize - 1);
    assert b < 32;
    assert b & 0x1F == b;
  }

  lemma ReverseReverse<T>(s: seq<T>)
    ensures Reverse(Reverse(s)) == s
  {
    assert forall i | 0 <= i < |s| :: Reverse(Reverse(s))[i] == s[i];
  }

  /** Decoding what the encoder produced gives back the same record. */
  lemma SystemInfoRoundTrip(info: SystemInfo)
    requires WellFormedSystemInfo(info)
    ensures SystemInfoOf(SystemInfoBytes(info)) == Success(info)
  {
    var data := SystemInfoBytes(info);
    var flags := InfoFlagsOf(info);
    var t4 := FieldBytes(IcRefBytes(info));
    var t3 := FieldBytes(MemoryBytes(info)) + t4;
    var t2 := FieldBytes(AfiBytes(info)) + t3;
    var t1 := FieldBytes(DsfidBytes(info)) + t2;
    ReverseReverse(info.uid);
    assert data == [flags] + Reverse(info.uid) + t1;
    assert Slice(data, 1, 9) == Reverse(info.uid);
    assert Slice(data, FieldsStart, |data|) == t1;
    TakeField(DsfidBytes(info), 1, t2);
    TakeField(AfiBytes(info), 1, t3);
    TakeField(MemoryBytes(info), 2, t4);
    TakeField(IcRefBytes(info), 1, []);
    assert t4 + [] == t4;
    if info.afi.Some? {
      AfiRoundTrip(info.afi.value);
    }
    if info.memorySize.Some? {
      MemorySizeRoundTrip(info.memorySize.value);
    }
  }
  // ---------------------------------------------------------------------------------------
  // Get Extended System Information

  /** All info requested (0x7F), with the one-byte "info length" convention (bit 7 clear). */
  function ExtendedSystemInfoFrame(): seq<bv8> {
    [FlagDataRate, CmdExtendedSystemInfo, 0x7F]
  }

  /** The named capabilities of the four-byte supported-command bitmap. */
  datatype Capability =
    | ReadSingleBlock | WriteSingleBlock | LockSingleBlock | ReadMultipleBlocks
    | WriteMultipleBlocks | Select | ResetToReady | GetMultipleBlockSecurityStatus
    | WriteAfi | LockAfi | WriteDsfid | LockDsfid | GetSystemInformation | CustomCommands
    | FastReadMultipleBlocks
    | ExtendedReadSingleBlock | ExtendedWriteSingleBlock | ExtendedLockSingleBlock
    | ExtendedReadMultipleBlocks | ExtendedWriteMultipleBlocks
    | ExtendedGetMultipleBlockSecurityStatus | FastExtendedReadMultipleBlocks
    | ReadBuffer | SelectedSecureState | FinalResponseAlwaysIncludesCryptoResult
    | AuthCommCryptoFormatSupported | SecureCommCryptoFormatSupported | KeyUpdateSupported
    | ChallengeSupported | FurtherByteTransmission

  /** Where a capability lives: byte index within the bitmap and bit number within that byte. */
  function CapabilityBit(c: Capability): (nat, nat) {
    match c
    case ReadSingleBlock => (0, 0)
    case WriteSingleBlock => (0, 1)
    case LockSingleBlock => (0, 2)
    case ReadMultipleBlocks => (0, 3)
    case WriteMultipleBlocks => (0, 4)
    case Select => (0, 5)
    case ResetToReady => (0, 6)
    case GetMultipleBlockSecurityStatus => (0, 7)
    case WriteAfi => (1, 0)
    case LockAfi => (1, 1)
    case WriteDsfid => (1, 2)
    case LockDsfid => (1, 3)
    case GetSystemInformation => (1, 4)
    case CustomCommands => (1, 5)
    case FastReadMultipleBlocks => (1, 6)
    case ExtendedReadSingleBlock => (2, 0)
    case ExtendedWriteSingleBlock => (2, 1)
    case ExtendedLockSingleBlock => (2, 2)
    case ExtendedReadMultipleBlocks => (2, 3)
    case ExtendedWriteMultipleBlocks => (2, 4)
    case ExtendedGetMultipleBlockSecurityStatus => (2, 5)
    case FastExtendedReadMultipleBlocks => (2, 6)
    case ReadBuffer => (3, 0)
    case SelectedSecureState => (3, 1)
    case FinalResponseAlwaysIncludesCryptoResult => (3, 2)
    case AuthCommCryptoFormatSupported => (3, 3)
    case SecureCommCryptoFormatSupported => (3, 4)
    case KeyUpdateSupported => (3, 5)
    case ChallengeSupported => (3, 6)
    case FurtherByteTransmission => (3, 7)
  }

  /** The inverse table: which capability a bit names, if any. */
  function CapabilityAt(index: nat, bit: nat): Option<Capability> {
    match (index, bit)
    case (0, 0) => Some(ReadSingleBlock)
    case (0, 1) => Some(WriteSingleBlock)
    case (0, 2) => Some(LockSingleBlock)
    case (0, 3) => Some(ReadMultipleBlocks)
    case (0, 4) => Some(WriteMultipleBlocks)
    case (0, 5) => Some(Select)
    case (0, 6) => Some(ResetToReady)
    case (0, 7) => Some(GetMultipleBlockSecurityStatus)
    case (1, 0) => Some(WriteAfi)
    case (1, 1) => Some(LockAfi)
    case (1, 2) => Some(WriteDsfid)
    case (1, 3) => Some(LockDsfid)
    case (1, 4) => Some(GetSystemInformation)
    case (1, 5) => Some(CustomCommands)
    case (1, 6) => Some(FastReadMultipleBlocks)
    case (2, 0) => Some(ExtendedReadSingleBlock)
    case (2, 1) => Some(ExtendedWriteSingleBlock)
    case (2, 2) => Some(ExtendedLockSingleBlock)
    case (2, 3) => Some(ExtendedReadMultipleBlocks)
    case (2, 4) => Some(ExtendedWriteMultipleBlocks)
    case (2, 5) => Some(ExtendedGetMultipleBlockSecurityStatus)
    case (2, 6) => Some(FastExtendedReadMultipleBlocks)
    case (3, 0) => Some(ReadBuffer)
    case (3, 1) => Some(SelectedSecureState)
    case (3, 2) => Some(FinalResponseAlwaysIncludesCryptoResult)
    case (3, 3) => Some(AuthCommCryptoFormatSupported)
    case (3, 4) => Some(SecureCommCryptoFormatSupported)
    case (3, 5) => Some(KeyUpdateSupported)
    case (3, 6) => Some(ChallengeSupported)
    case (3, 7) => Some(FurtherByteTransmission)
    case _ => None
  }

  /** Every capability has its own bit of the bitmap: no two names share one. */
  lemma CapabilityBitsDistinct(c: Capability)
    ensures CapabilityBit(c).0 < 4 && CapabilityBit(c).1 < 8
    ensures CapabilityAt(CapabilityBit(c).0, CapabilityBit(c).1) == Some(c)
  {
  }

  /** Whether the bitmap advertises capability `c`. */
  function Supports(commandList: seq<bv8>, c: Capability): bool
    requires |commandList| == 4
  {
    var (index, bit) := CapabilityBit(c);
    commandList[index] & ((1 as bv8) << bit) != 0
  }

  /**
   * Reading the bitmap through the capability names loses nothing: each of the 30 named bits
   * is advertised exactly when the capability it names is supported.
   */
  lemma SupportsNamedBit(commandList: seq<bv8>, index: nat, bit: nat)
    requires |commandList| == 4 && CapabilityAt(index, bit).Some?
    ensures index < 4 && bit < 8
    ensures Supports(commandList, CapabilityAt(index, bit).value) <==>
              commandList[index] & ((1 as bv8) << bit) != 0
  {
    CapabilityAtInverse(index, bit);
  }

  /** `CapabilityBit` inverts `CapabilityAt` on every named bit. */
  lemma CapabilityAtInverse(index: nat, bit: nat)
    requires CapabilityAt(index, bit).Some?
    ensures CapabilityBit(CapabilityAt(index, bit).value) == (index, bit)
  {
    if index == 0 {
    } else if index == 1 {
    } else if index == 2 {
    } else {
    }
  }

  /** Sorts one crypto suite identifier into its class. */
  function CsiOf(raw: bv8): (c: Csi)
    ensures c.Iso29167? <==> raw & 0xC0 == 0x00
    ensures c.Manufacturer? <==> raw & 0xC0 != 0x00 && raw & 0xF0 == 0xD0
    ensures c.Gs1? <==> raw & 0xC0 != 0x00 && raw & 0xF0 == 0xE0
  {
    if raw & 0xC0 == 0x00 then Iso29167(raw & 0x3F)
    else if raw & 0xF0 == 0xD0 then Manufacturer(raw & 0x0F)
    else if raw & 0xF0 == 0xE0 then Gs1(raw & 0x0F)
    else Rfu(raw)
  }

  /** The identifier byte of a classified suite: the partner of `CsiOf`. */
  function CsiByte(c: Csi): bv8 {
    match c
    case Iso29167(suite) => suite
    case Manufacturer(id) => 0xD0 | id
    case Gs1(id) => 0xE0 | id
    case Rfu(raw) => raw
  }

  predicate WellFormedCsi(c: Csi) {
    match c
    case Iso29167(suite) => suite < 0x40
    case Manufacturer(id) => id < 0x10
    case Gs1(id) => id < 0x10
    case Rfu(raw) => raw & 0xC0 != 0x00 && raw & 0xF0 != 0xD0 && raw & 0xF0 != 0xE0
  }

  /** Classification loses nothing: the identifier byte comes back. */
  lemma CsiByteOfCsi(raw: bv8)
    ensures WellFormedCsi(CsiOf(raw)) && CsiByte(CsiOf(raw)) == raw
  {
  }

  lemma CsiOfCsiByte(c: Csi)
    requires WellFormedCsi(c)
    ensures CsiOf(CsiByte(c)) == c
  {
  }

  /** `count` identifiers starting at `start`, or IndexError when the answer is too short. */
  function CsiListOf(data: seq<bv8>, start: nat, count: nat): (r: Result<seq<Csi>>)
    ensures r.Success? <==> count == 0 || start + count <= |data|
    ensures r.Success? ==> |r.value| == count
    ensures r.Success? ==> forall k | 0 <= k < count :: r.value[k] == CsiOf(data[start + k])
    ensures r.Failure? ==> r.error == IndexOutOfRange
  {
    if count == 0 then Success([])
    else if start + count <= |data| then Success(seq(count, k requires 0 <= k < count => CsiOf(data[start + k])))
    else Failure(IndexOutOfRange)
  }

  /** The crypto-suite list loop. */
  method DecodeCsiList(data: seq<bv8>, start: nat, count: nat) returns (r: Result<seq<Csi>>)
    ensures r == CsiListOf(data, start, count)
  {
    var list: seq<Csi> := [];
    var i := 0;
    while i < count
      invariant 0 <= i <= count && (i > 0 ==> start + i <= |data|)
      invariant |list| == i
      invariant forall k | 0 <= k < i :: list[k] == CsiOf(data[start + k])
    {
      if start + i >= |data| {
        return Failure(IndexOutOfRange);
      }
      list := list + [CsiOf(data[start + i])];
      i := i + 1;
    }
    assert count > 0 ==> list == CsiListOf(data, start, count).value;
    r := Success(list);
  }

  /** Reading the list in a suffix of the answer is reading it further along the answer. */
  lemma CsiListShift(data: seq<bv8>, index: nat, start: nat, count: nat)
    requires index <= |data|
    ensures CsiListOf(data[index..], start, count) == CsiListOf(data, index + start, count)
  {
    var a := CsiListOf(data[index..], start, count);
    var b := CsiListOf(data, index + start, count);
    if a.Success? && b.Success? {
      assert a.value == b.value;
    }
  }

  /**
   * The crypto-suite field at the head of `t`: a zero length byte stands for a single entry
   * and is not consumed, so that byte is itself the entry; otherwise the length byte is
   * skipped and that many identifiers follow.
   */
  function CsiFieldOf(t: seq<bv8>): (r: Result<seq<Csi>>)
    ensures r.Success? <==> |t| > 0 && (t[0] == 0 || t[0] as int < |t|)
    ensures r.Success? ==> |r.value| >= 1
    ensures r.Success? && t[0] == 0 ==> r.value == [Iso29167(0)]
    ensures r.Success? && t[0] != 0 ==> r == CsiListOf(t, 1, t[0] as nat)
    ensures r.Failure? ==> r.error == IndexOutOfRange
  {
    var length :- ByteAt(t, 0);
    if length == 0 then CsiListOf(t, 0, 1) else CsiListOf(t, 1, length as nat)
  }

  /** Extended memory size: a two-byte little-endian count, then the size byte. */
  function ExtendedMemoryField(field: Option<seq<bv8>>): (m: Option<MemorySize>)
    requires field.Some? ==> |field.value| == 3
    ensures m.Some? ==> 1 <= m.value.numBlocks <= 0x10000
  {
    if field.Some?
    then Some(MemorySizeOf(field.value[0] as int + field.value[1] as int * 256 + 1, field.value[2]))
    else None
  }

  /** The extended-only fields at the head of `t`, after the fields of the basic answer. */
  function ExtendedTailOf(t: seq<bv8>, flags: bv8, base: SystemInfo): (r: Result<ExtendedSystemInfo>)
    ensures r.Success? ==> r.value.base == base
    ensures r.Success? ==> (r.value.moi.Some? <==> flags & InfoMoi != 0)
    ensures r.Success? ==> (r.value.commandList.Some? <==> flags & InfoCommandList != 0)
    ensures r.Success? ==> (r.value.csi.Some? <==> flags & InfoCsi != 0)
    ensures r.Success? && r.value.commandList.Some? ==> |r.value.commandList.value| == 4
    ensures r.Success? && r.value.csi.Some? ==> |r.value.csi.value| >= 1
    ensures r.Failure? ==> r.error == IndexOutOfRange
  {
    var moi :- Take(t, 1, flags & InfoMoi != 0);
    var commandList :- Take(moi.1, 4, flags & InfoCommandList != 0);
    var csi :- if flags & InfoCsi == 0 then Success(None)
               else (var list :- CsiFieldOf(commandList.1); Success(Some(list)));
    Success(ExtendedSystemInfo(base, ByteField(moi.0), commandList.0, csi))
  }

  /** The decoded extended answer: the fields of the basic answer, then MOI, bitmap and suites. */
  function ExtendedSystemInfoOf(data: seq<bv8>): (r: Result<ExtendedSystemInfo>)
    ensures |data| == 0 ==> r == Failure(IndexOutOfRange)
    ensures |data| > 0 && data[0] & InfoLength != 0 ==> r == Failure(ExtendedFlagsNotSupported)
    ensures r.Success? ==> |data| > 0 && data[0] & InfoLength == 0
    ensures r.Success? ==> r.value.base.uid == Reverse(Slice(data, 1, 9))
    ensures r.Success? ==> (r.value.base.dsfid.Some? <==> data[0] & InfoDsfid != 0)
    ensures r.Success? ==> (r.value.base.afi.Some? <==> data[0] & InfoAfi != 0)
    ensures r.Success? ==> (r.value.base.memorySize.Some? <==> data[0] & InfoMemorySize != 0)
    ensures r.Success? ==> (r.value.base.icRef.Some? <==> data[0] & InfoIcReference != 0)
    ensures r.Success? ==> (r.value.moi.Some? <==> data[0] & InfoMoi != 0)
    ensures r.Success? ==> (r.value.commandList.Some? <==> data[0] & InfoCommandList != 0)
    ensures r.Success? ==> (r.value.csi.Some? <==> data[0] & InfoCsi != 0)
    ensures r.Success? && r.value.commandList.Some? ==> |r.value.commandList.value| == 4
    ensures r.Success? && r.value.csi.Some? ==> |r.value.csi.value| >= 1
    ensures r.Success? && r.value.base.memorySize.Some? ==>
              1 <= r.value.base.memorySize.value.numBlocks <= 0x10000
  {
    var flags :- ByteAt(data, 0);
    if flags & InfoLength != 0 then Failure(ExtendedFlagsNotSupported)
    else
      var head :- ExtendedBaseOf(data, flags);
      ExtendedTailOf(head.1, flags, head.0)
  }

  /** The fields the extended answer shares with the basic one, and the bytes after them. */
  function ExtendedBaseOf(data: seq<bv8>, flags: bv8): (r: Result<(SystemInfo, seq<bv8>)>)
    ensures r.Success? ==> r.value.0.uid == Reverse(Slice(data, 1, 9))
    ensures r.Success? ==> (r.value.0.dsfid.Some? <==> flags & InfoDsfid != 0)
    ensures r.Success? ==> (r.value.0.afi.Some? <==> flags & InfoAfi != 0)
    ensures r.Success? ==> (r.value.0.memorySize.Some? <==> flags & InfoMemorySize != 0)
    ensures r.Success? ==> (r.value.0.icRef.Some? <==> flags & InfoIcReference != 0)
    ensures r.Success? && r.value.0.memorySize.Some? ==> 1 <= r.value.0.memorySize.value.numBlocks <= 0x10000
    ensures r.Failure? ==> r.error == IndexOutOfRange
  {
    var dsfid :- Take(Slice(data, FieldsStart, |data|), 1, flags & InfoDsfid != 0);
    var afi :- Take(dsfid.1, 1, flags & InfoAfi != 0);
    // the two-byte count is sliced (never failing); the size byte after it is indexed
    var memory :- Take(afi.1, 3, flags & InfoMemorySize != 0);
    var icRef :- Take(memory.1, 1, flags & InfoIcReference != 0);
    Success((SystemInfo(Reverse(Slice(data, 1, 9)), ByteField(dsfid.0), AfiField(afi.0),
                        ExtendedMemoryField(memory.0), ByteField(icRef.0)), icRef.1))
  }

  /**
   * Without a memory-size field and without the extended-only fields, the extended answer
   * decodes to the same basic record as a Get System Information answer.
   */
  lemma ExtendedAgreesWithBasic(data: seq<bv8>)
    requires |data| > 0 && data[0] & 0xF4 == 0
    ensures ExtendedSystemInfoOf(data).Success? <==> SystemInfoOf(data).Success?
    ensures ExtendedSystemInfoOf(data).Success? ==> ExtendedSystemInfoOf(data).value.base == SystemInfoOf(data).value
  {
  }

  /** A single crypto suite, sent without a length byte. */
  lemma SingleCsiWithoutLength(uid: seq<bv8>)
    requires |uid| == 8
    ensures ExtendedSystemInfoOf([InfoCsi] + uid + [0x00]) ==
      Success(ExtendedSystemInfo(SystemInfo(Reverse(uid), None, None, None, None), None, None, Some([Iso29167(0)])))
  {
    var data := [InfoCsi] + uid + [0x00];
    assert Slice(data, 1, 9) == uid;
    assert Slice(data, FieldsStart, |data|) == [0x00];
  }

  // ---------------------------------------------------------------------------------------
  // An encoder for extended answers, the partner of the extended decoder

  /** A memory size the three-byte field can carry: up to 65536 blocks of up to 32 bytes. */
  predicate ExtendedGeometry(m: MemorySize) {
    1 <= m.numBlocks <= 0x10000 && 1 <= m.blockSize <= 32 && m.memory == m.blockSize * m.numBlocks
  }

  predicate WellFormedExtendedSystemInfo(info: ExtendedSystemInfo) {
    var b := info.base;
    |b.uid| == 8
    && (b.afi.Some? ==> b.afi.value.family < 16 && b.afi.value.subFamily < 16)
    && (b.memorySize.Some? ==> ExtendedGeometry(b.memorySize.value))
    && (info.commandList.Some? ==> |info.commandList.value| == 4)
    && (info.csi.Some? ==>
          1 <= |info.csi.value| <= 255 && forall k | 0 <= k < |info.csi.value| :: WellFormedCsi(info.csi.value[k]))
  }

  /** The flags byte: one bit per present field, and the one-byte length convention. */
  function ExtendedFlagsOf(info: ExtendedSystemInfo): (flags: bv8)
    ensures flags & InfoDsfid != 0 <==> info.base.dsfid.Some?
    ensures flags & InfoAfi != 0 <==> info.base.afi.Some?
    ensures flags & InfoMemorySize != 0 <==> info.base.memorySize.Some?
    ensures flags & InfoIcReference != 0 <==> info.base.icRef.Some?
    ensures flags & InfoMoi != 0 <==> info.moi.Some?
    ensures flags & InfoCommandList != 0 <==> info.commandList.Some?
    ensures flags & InfoCsi != 0 <==> info.csi.Some?
    ensures flags & InfoLength == 0
  {
    InfoFlagsOf(info.base) | (if info.moi.Some? then InfoMoi else 0)
    | (if info.commandList.Some? then InfoCommandList else 0) | (if info.csi.Some? then InfoCsi else 0)
  }

  /** The three-byte memory field: the block count minus one, low byte first, then the size byte. */
  function ExtendedMemoryBytes(memorySize: Option<MemorySize>): (f: Option<seq<bv8>>)
    requires memorySize.Some? ==> ExtendedGeometry(memorySize.value)
    ensures f.Some? ==> |f.value| == 3
  {
    if memorySize.Some?
    then
      var m := memorySize.value;
      var (lo, hi) := LittleEndian16(m.numBlocks - 1);
      Some([lo, hi, ToByte(m.blockSize - 1)])
    else None
  }

  /** A 16-bit count as two bytes, low byte first. */
  function LittleEndian16(v: int): (bytes: (bv8, bv8))
    requires 0 <= v < 0x10000
    ensures bytes.0 as int + bytes.1 as int * 256 == v
  {
    (ToByte(v % 256), ToByte(v / 256))
  }

  function MoiBytes(info: ExtendedSystemInfo): (f: Option<seq<bv8>>)
    ensures f.Some? ==> |f.value| == 1
  {
    if info.moi.Some? then Some([info.moi.value]) else None
  }

  /** The suite list: its length byte, then one identifier byte per suite. */
  function CsiBytes(list: seq<Csi>): (t: seq<bv8>)
    requires 1 <= |list| <= 255
    ensures |t| == |list| + 1 && t[0] as int == |list|
  {
    [ToByte(|list|)] + seq(|list|, k requires 0 <= k < |list| => CsiByte(list[k]))
  }

  /** The answer a tag sends for `info`: flags, the UID reversed, then the present fields. */
  function ExtendedSystemInfoBytes(info: ExtendedSystemInfo): (data: seq<bv8>)
    requires WellFormedExtendedSystemInfo(info)
  {
    [ExtendedFlagsOf(info)] + Reverse(info.base.uid) + ExtendedFieldBytes(info)
  }

  /** The optional fields after the UID, in the order the decoder takes them. */
  function ExtendedFieldBytes(info: ExtendedSystemInfo): seq<bv8>
    requires WellFormedExtendedSystemInfo(info)
  {
    FieldBytes(DsfidBytes(info.base)) + (FieldBytes(AfiBytes(info.base))
    + (FieldBytes(ExtendedMemoryBytes(info.base.memorySize)) + (FieldBytes(IcRefBytes(info.base))
    + ExtendedTailBytes(info))))
  }

  /** MOI, the command bitmap and the suite list, each when present. */
  function ExtendedTailBytes(info: ExtendedSystemInfo): seq<bv8>
    requires WellFormedExtendedSystemInfo(info)
  {
    FieldBytes(MoiBytes(info)) + (FieldBytes(info.commandList)
    + (if info.csi.Some? then CsiBytes(info.csi.value) else []))
  }

  lemma ExtendedMemoryRoundTrip(memorySize: Option<MemorySize>)
    requires memorySize.Some? ==> ExtendedGeometry(memorySize.value)
    ensures ExtendedMemoryField(ExtendedMemoryBytes(memorySize)) == memorySize
  {
    if memorySize.Some? {
      var m := memorySize.value;
      var f := ExtendedMemoryBytes(memorySize).value;
      var n := f[0] as int + f[1] as int * 256 + 1;
      assert n == m.numBlocks;
      assert f[2] < 32 && f[2] % 32 == f[2];
      var r := MemorySizeOf(n, f[2]);
      assert r.blockSize == m.blockSize;
      assert r.memory == m.memory;
    }
  }

  lemma CsiFieldRoundTrip(list: seq<Csi>)
    requires 1 <= |list| <= 255 && forall k | 0 <= k < |list| :: WellFormedCsi(list[k])
    ensures CsiFieldOf(CsiBytes(list)) == Success(list)
  {
    var t := CsiBytes(list);
    var r := CsiFieldOf(t);
    assert t[0] != 0 && t[0] as int < |t|;
    assert r == CsiListOf(t, 1, |list|);
    forall k | 0 <= k < |list|
      ensures r.value[k] == list[k]
    {
      assert t[1 + k] == CsiByte(list[k]);
      CsiOfCsiByte(list[k]);
    }
    assert r.value == list;
  }

  /** The extended-only fields decode back from their bytes. */
  lemma ExtendedTailRoundTrip(info: ExtendedSystemInfo)
    requires WellFormedExtendedSystemInfo(info)
    ensures ExtendedTailOf(ExtendedTailBytes(info), ExtendedFlagsOf(info), info.base) == Success(info)
  {
    var flags := ExtendedFlagsOf(info);
    var t2 := if info.csi.Some? then CsiBytes(info.csi.value) else [];
    var t1 := FieldBytes(info.commandList) + t2;
    TakeField(MoiBytes(info), 1, t1);
    TakeField(info.commandList, 4, t2);
    if info.csi.Some? {
      CsiFieldRoundTrip(info.csi.value);
    }
  }

  /** The UID and the fields sit where the decoder looks for them. */
  lemma HeaderSplit(flags: bv8, uid: seq<bv8>, fields: seq<bv8>)
    requires |uid| == 8
    ensures Slice([flags] + Reverse(uid) + fields, 1, 9) == Reverse(uid)
    ensures Slice([flags] + Reverse(uid) + fields, FieldsStart, |[flags] + Reverse(uid) + fields|) == fields
  {
    var data := [flags] + Reverse(uid) + fields;
    assert data[1..9] == Reverse(uid);
    assert data[9..] == fields;
  }

  /** Each field of the basic part decodes back to the record's own field. */
  lemma ExtendedBaseFieldsRoundTrip(info: ExtendedSystemInfo)
    requires WellFormedExtendedSystemInfo(info)
    ensures ByteField(DsfidBytes(info.base)) == info.base.dsfid
    ensures AfiField(AfiBytes(info.base)) == info.base.afi
    ensures ExtendedMemoryField(ExtendedMemoryBytes(info.base.memorySize)) == info.base.memorySize
    ensures ByteField(IcRefBytes(info.base)) == info.base.icRef
  {
    if info.base.afi.Some? {
      AfiRoundTrip(info.base.afi.value);
    }
    ExtendedMemoryRoundTrip(info.base.memorySize);
  }

  /** The fields shared with the basic answer decode back, leaving the extended-only bytes. */
  lemma ExtendedBaseRoundTrip(info: ExtendedSystemInfo, flags: bv8)
    requires WellFormedExtendedSystemInfo(info)
    requires flags & InfoDsfid != 0 <==> info.base.dsfid.Some?
    requires flags & InfoAfi != 0 <==> info.base.afi.Some?
    requires flags & InfoMemorySize != 0 <==> info.base.memorySize.Some?
    requires flags & InfoIcReference != 0 <==> info.base.icRef.Some?
    ensures ExtendedBaseOf([flags] + Reverse(info.base.uid) + ExtendedFieldBytes(info), flags) ==
              Success((info.base, ExtendedTailBytes(info)))
  {
    ReverseReverse(info.base.uid);
    HeaderSplit(flags, info.base.uid, ExtendedFieldBytes(info));
    ExtendedFieldsTaken(info, flags);
    ExtendedBaseFieldsRoundTrip(info);
  }

  /** Each optional field is taken off the front in turn, leaving the extended-only bytes. */
  lemma ExtendedFieldsTaken(info: ExtendedSystemInfo, flags: bv8)
    requires WellFormedExtendedSystemInfo(info)
    requires flags & InfoDsfid != 0 <==> info.base.dsfid.Some?
    requires flags & InfoAfi != 0 <==> info.base.afi.Some?
    requires flags & InfoMemorySize != 0 <==> info.base.memorySize.Some?
    requires flags & InfoIcReference != 0 <==> info.base.icRef.Some?
    ensures var b := info.base;
            var t4 := FieldBytes(IcRefBytes(b)) + ExtendedTailBytes(info);
            var t3 := FieldBytes(ExtendedMemoryBytes(b.memorySize)) + t4;
            var t2 := FieldBytes(AfiBytes(b)) + t3;
            && Take(ExtendedFieldBytes(info), 1, flags & InfoDsfid != 0) == Success((DsfidBytes(b), t2))
            && Take(t2, 1, flags & InfoAfi != 0) == Success((AfiBytes(b), t3))
            && Take(t3, 3, flags & InfoMemorySize != 0) == Success((ExtendedMemoryBytes(b.memorySize), t4))
            && Take(t4, 1, flags & InfoIcReference != 0) == Success((IcRefBytes(b), ExtendedTailBytes(info)))
  {
    var b := info.base;
    var t5 := ExtendedTailBytes(info);
    var t4 := FieldBytes(IcRefBytes(b)) + t5;
    var t3 := FieldBytes(ExtendedMemoryBytes(b.memorySize)) + t4;
    var t2 := FieldBytes(AfiBytes(b)) + t3;
    TakeField(DsfidBytes(b), 1, t2);
    TakeField(AfiBytes(b), 1, t3);
    TakeField(ExtendedMemoryBytes(b.memorySize), 3, t4);
    TakeField(IcRefBytes(b), 1, t5);
  }

  /** Decoding what the extended encoder produced gives back the same record. */
  lemma ExtendedSystemInfoRoundTrip(info: ExtendedSystemInfo)
    requires WellFormedExtendedSystemInfo(info)
    ensures ExtendedSystemInfoOf(ExtendedSystemInfoBytes(info)) == Success(info)
  {
    var data := ExtendedSystemInfoBytes(info);
    assert data[0] == ExtendedFlagsOf(info);
    ExtendedBaseRoundTrip(info, ExtendedFlagsOf(info));
    ExtendedTailRoundTrip(info);
  }

  /** `get_extended_system_info`'s decoding, with its cursor. */
  method DecodeExtendedSystemInfo(data: seq<bv8>) returns (r: Result<ExtendedSystemInfo>)
    ensures r == ExtendedSystemInfoOf(data)
  {
    if |data| == 0 {
      return Failure(IndexOutOfRange);
    }
    var flags := data[0];
    if flags & InfoLength != 0 {
      return Failure(ExtendedFlagsNotSupported);
    }
    var head := DecodeExtendedBase(data, flags);
    if head.Failure? {
      return Failure(head.error);
    }
    r := DecodeExtendedTail(data, flags, head.value.1, head.value.0);
  }

  /** The fields shared with the basic answer, with the cursor after them. */
  method DecodeExtendedBase(data: seq<bv8>, flags: bv8) returns (r: Result<(SystemInfo, nat)>)
    ensures r.Success? <==> ExtendedBaseOf(data, flags).Success?
    ensures r.Failure? ==> r.error == IndexOutOfRange
    ensures r.Success? ==> ExtendedBaseOf(data, flags).value == (r.value.0, Slice(data, r.value.1, |data|))
  {
    var uid := Reverse(Slice(data, 1, 9));
    var index := FieldsStart;
    var dsfid: Option<bv8> := None;
    var afi: Option<Afi> := None;
    var memorySize: Option<MemorySize> := None;
    var icRef: Option<bv8> := None;
    TakeAt(data, index, 1, flags & InfoDsfid != 0);
    ghost var s1 := Take(Slice(data, index, |data|), 1, flags & InfoDsfid != 0);
    if flags & InfoDsfid != 0 {
      if index >= |data| {
        return Failure(IndexOutOfRange);
      }
      dsfid := Some(data[index]);
      index := index + 1;
    }
    TakeAt(data, index, 1, flags & InfoAfi != 0);
    ghost var s2 := Take(s1.value.1, 1, flags & InfoAfi != 0);
    if flags & InfoAfi != 0 {
      if index >= |data| {
        return Failure(IndexOutOfRange);
      }
      afi := Some(AfiOf(data[index]));
      index := index + 1;
    }
    TakeAt(data, index, 3, flags & InfoMemorySize != 0);
    ghost var s3 := Take(s2.value.1, 3, flags & InfoMemorySize != 0);
    if flags & InfoMemorySize != 0 {
      if index + 2 >= |data| {
        return Failure(IndexOutOfRange);
      }
      var numBlocks := data[index] as int + data[index + 1] as int * 256 + 1;
      index := index + 2;
      memorySize := Some(MemorySizeOf(numBlocks, data[index]));
      index := index + 1;
    }
    assert ExtendedMemoryField(s3.value.0) == memorySize;
    TakeAt(data, index, 1, flags & InfoIcReference != 0);
    ghost var s4 := Take(s3.value.1, 1, flags & InfoIcReference != 0);
    if flags & InfoIcReference != 0 {
      if index >= |data| {
        return Failure(IndexOutOfRange);
      }
      icRef := Some(data[index]);
      index := index + 1;
    }
    var base := SystemInfo(uid, dsfid, afi, memorySize, icRef);
    r := Success((base, index));
  }

  /** The crypto-suite field at the cursor. */
  method DecodeCsiField(data: seq<bv8>, start: nat) returns (r: Result<seq<Csi>>)
    ensures r == CsiFieldOf(Slice(data, start, |data|))
  {
    if start >= |data| {
      return Failure(IndexOutOfRange);
    }
    var index := start;
    assert Slice(data, index, |data|) == data[index..];
    var count: nat := data[index] as nat;
    if count == 0 {
      count := 1;
      CsiListShift(data, index, 0, 1);
    } else {
      CsiListShift(data, index, 1, count);
      index := index + 1;
    }
    r := DecodeCsiList(data, index, count);
  }

  /** The extended-only fields, from the cursor on. */
  method DecodeExtendedTail(data: seq<bv8>, flags: bv8, start: nat, base: SystemInfo)
    returns (r: Result<ExtendedSystemInfo>)
    ensures r == ExtendedTailOf(Slice(data, start, |data|), flags, base)
  {
    var index := start;
    var moi: Option<bv8> := None;
    var commandList: Option<seq<bv8>> := None;
    var csi: Option<seq<Csi>> := None;
    TakeAt(data, index, 1, flags & InfoMoi != 0);
    ghost var s5 := Take(Slice(data, index, |data|), 1, flags & InfoMoi != 0);
    if flags & InfoMoi != 0 {
      if index >= |data| {
        return Failure(IndexOutOfRange);
      }
      moi := Some(data[index]);
      index := index + 1;
    }
    TakeAt(data, index, 4, flags & InfoCommandList != 0);
    ghost var s6 := Take(s5.value.1, 4, flags & InfoCommandList != 0);
    if flags & InfoCommandList != 0 {
      if index + 4 > |data| {
        return Failure(IndexOutOfRange);
      }
      commandList := Some(data[index..index + 4]);
      index := index + 4;
    }
    if flags & InfoCsi != 0 {
      var list := DecodeCsiField(data, index);
      if list.Failure? {
        return Failure(list.error);
      }
      csi := Some(list.value);
    }
    r := Success(ExtendedSystemInfo(base, moi, commandList, csi));
  }

  // ---------------------------------------------------------------------------------------
  // Reading blocks

  function ReadSingleBlockFrame(blockNumber: bv8): seq<bv8> {
    [FlagDataRate, CmdReadSingleBlock, blockNumber]
  }

  /** The answer as returned: the whole answer (status byte included) and its lock bit. */
  function SingleBlockOf(data: seq<bv8>): (r: Result<SingleBlock>)
    ensures r.Success? <==> |data| > 0
    ensures r.Success? ==> r.value.data == data && r.value.locked <= 1 && (r.value.locked == 1 <==> data[0] & 1 == 1)
  {
    if |data| == 0 then Failure(IndexOutOfRange) else Success(SingleBlock(data, data[0] & 0x01))
  }

  /** Option flag set, the fast extended read, the start block and (count - 1), both big-endian. */
  function ReadMultipleBlocksFrame(start: int, numBlocks: int): (frame: seq<bv8>)
    requires 0 <= start < 0x10000 && 1 <= numBlocks <= 0x10000
    ensures |frame| == 6 && frame[..2] == [FlagDataRate | FlagOption, CmdFastExtReadMultipleBlocks]
    ensures frame[2] as int * 256 + frame[3] as int == start
    ensures frame[4] as int * 256 + frame[5] as int == numBlocks - 1
  {
    [FlagDataRate | FlagOption, CmdFastExtReadMultipleBlocks] + HighLow(start) + HighLow(numBlocks - 1)
  }

  /** The running offset after `i` blocks of `size` bytes. */
  function Offset(i: nat, size: nat): nat {
    if i == 0 then 0 else Offset(i - 1, size) + size
  }

  lemma {:induction false} OffsetIsProduct(i: nat, size: nat)
    ensures Offset(i, size) == i * size
  {
    if i > 0 {
      OffsetIsProduct(i - 1, size);
      MulSucc(i - 1, size);
    }
  }

  lemma OffsetInRange(length: nat, n: nat, i: nat)
    requires n >= 1 && i < n && length > 0
    ensures Offset(i, length / n) < length
    ensures Offset(i, length / n) + length / n <= length
  {
    var b := length / n;
    OffsetIsProduct(i, b);
    MulMono(i, n - 1, b);
    MulSucc(n - 1, b);
    assert n * b + length % n == length;
    if b == 0 {
      assert i * b == 0;
    }
  }

  /** Block `i` of a multiple-block answer split into `n` equal parts of `length / n` bytes. */
  function BlockAt(data: seq<bv8>, n: nat, i: nat): (b: Block)
    requires n >= 1 && i < n && |data| > 0
    ensures b.locked <= 1
  {
    var size := |data| / n;
    OffsetInRange(|data|, n, i);
    Block(Slice(data, Offset(i, size) + 1, Offset(i, size) + size), data[Offset(i, size)] & 0x01)
  }

  /** The split of a multiple-block answer; only an empty answer cannot be split. */
  function BlocksOf(data: seq<bv8>, n: nat): (r: Result<seq<Block>>)
    requires n >= 1
    ensures r.Success? <==> |data| > 0
    ensures r.Success? ==> |r.value| == n
    ensures r.Failure? ==> r.error == IndexOutOfRange
  {
    if |data| == 0 then Failure(IndexOutOfRange)
    else Success(BlocksPrefix(data, n, n))
  }

  /** The first `i` blocks of the split. */
  function BlocksPrefix(data: seq<bv8>, n: nat, i: nat): (r: seq<Block>)
    requires n >= 1 && i <= n && |data| > 0
    ensures |r| == i
  {
    seq(i, k requires 0 <= k < i => BlockAt(data, n, k))
  }

  lemma BlocksPrefixStep(data: seq<bv8>, n: nat, i: nat)
    requires n >= 1 && i < n && |data| > 0
    ensures BlocksPrefix(data, n, i + 1) == BlocksPrefix(data, n, i) + [BlockAt(data, n, i)]
  {
  }

  /** The split loop of `read_multiple_blocks`, with its running offset. */
  method SplitBlocks(data: seq<bv8>, n: nat) returns (r: Result<seq<Block>>)
    requires n >= 1
    ensures r == BlocksOf(data, n)
  {
    var blockLength := |data| / n;
    var readOffset := 0;
    var blocks: seq<Block> := [];
    var i := 0;
    while i < n
      invariant 0 <= i <= n && readOffset == Offset(i, blockLength)
      invariant |data| == 0 ==> i == 0
      invariant |data| > 0 ==> blocks == BlocksPrefix(data, n, i)
    {
      if readOffset >= |data| {
        assert |data| == 0 by {
          if |data| > 0 {
            OffsetInRange(|data|, n, i);
          }
        }
        return Failure(IndexOutOfRange);
      }
      var locked := data[readOffset] & 0x01;
      var block := Block(Slice(data, readOffset + 1, readOffset + blockLength), locked);
      assert block == BlockAt(data, n, i);
      BlocksPrefixStep(data, n, i);
      blocks := blocks + [block];
      readOffset := readOffset + blockLength;
      i := i + 1;
    }
    r := Success(blocks);
  }

  /** An answer made of blocks: each block's security status byte followed by its data. */
  function BlocksAnswer(statuses: seq<bv8>, payloads: seq<seq<bv8>>): (data: seq<bv8>)
    requires |statuses| == |payloads|
  {
    if statuses == [] then [] else [statuses[0]] + payloads[0] + BlocksAnswer(statuses[1..], payloads[1..])
  }

  lemma MulSucc(a: nat, b: nat)
    ensures (a + 1) * b == a * b + b
  {
  }

  lemma MulMono(a: nat, c: nat, b: nat)
    requires a <= c
    ensures a * b <= c * b
  {
  }

  /** Exact division: `n` blocks of `m` bytes split back into blocks of `m` bytes. */
  lemma DivExact(n: nat, m: nat)
    requires n >= 1
    ensures (n * m) / n == m
  {
    var q := (n * m) / n;
    var rem := (n * m) % n;
    assert n * q + rem == n * m;
    assert n * (m - q) == rem;
    if m - q >= 1 {
      MulMono(1, m - q, n);
    }
  }

  lemma {:induction false} BlocksAnswerLength(statuses: seq<bv8>, payloads: seq<seq<bv8>>, k: nat)
    requires |statuses| == |payloads|
    requires forall j | 0 <= j < |payloads| :: |payloads[j]| == k
    ensures |BlocksAnswer(statuses, payloads)| == |statuses| * (k + 1)
    decreases |statuses|
  {
    if statuses != [] {
      BlocksAnswerLength(statuses[1..], payloads[1..], k);
      MulSucc(|statuses| - 1, k + 1);
    }
  }

  /** Block `i` of the answer sits at `i * (k + 1)`: its status byte, then its payload. */
  lemma {:induction false} BlocksAnswerAt(statuses: seq<bv8>, payloads: seq<seq<bv8>>, k: nat, i: nat)
    requires |statuses| == |payloads| && i < |statuses|
    requires forall j | 0 <= j < |payloads| :: |payloads[j]| == k
    ensures (i + 1) * (k + 1) <= |BlocksAnswer(statuses, payloads)|
    ensures BlocksAnswer(statuses, payloads)[i * (k + 1) .. (i + 1) * (k + 1)] == [statuses[i]] + payloads[i]
    decreases i
  {
    var m := k + 1;
    var head := [statuses[0]] + payloads[0];
    var tail := BlocksAnswer(statuses[1..], payloads[1..]);
    var data := BlocksAnswer(statuses, payloads);
    assert data == head + tail;
    assert |head| == m;
    BlocksAnswerLength(statuses, payloads, k);
    if i == 0 {
      assert data[0..m] == head;
    } else {
      BlocksAnswerAt(statuses[1..], payloads[1..], k, i - 1);
      MulSucc(i - 1, m);
      MulSucc(i, m);
      assert data[i * m .. (i + 1) * m] == tail[(i - 1) * m .. i * m];
    }
  }

  /** Block `i` of an answer made of `n` blocks of `k` data bytes each. */
  lemma BlockAtAnswer(statuses: seq<bv8>, payloads: seq<seq<bv8>>, k: nat, i: nat)
    requires |statuses| == |payloads| && i < |statuses|
    requires forall j | 0 <= j < |payloads| :: |payloads[j]| == k
    ensures BlockAt(BlocksAnswer(statuses, payloads), |statuses|, i) == Block(payloads[i], statuses[i] & 0x01)
  {
    var n := |statuses|;
    var m := k + 1;
    var data := BlocksAnswer(statuses, payloads);
    BlocksAnswerLength(statuses, payloads, k);
    DivExact(n, m);
    BlocksAnswerAt(statuses, payloads, k, i);
    MulSucc(i, m);
    OffsetIsProduct(i, m);
    var chunk := data[i * m .. i * m + m];
    assert chunk == [statuses[i]] + payloads[i];
    assert data[i * m] == chunk[0];
    assert Slice(data, i * m + 1, i * m + m) == chunk[1..];
  }

  /** Splitting an answer of equal-sized blocks gives back each block and its lock bit. */
  lemma BlocksOfAnswer(statuses: seq<bv8>, payloads: seq<seq<bv8>>, k: nat)
    requires |statuses| == |payloads| >= 1
    requires forall j | 0 <= j < |payloads| :: |payloads[j]| == k
    ensures BlocksOf(BlocksAnswer(statuses, payloads), |statuses|) ==
      Success(seq(|statuses|, i requires 0 <= i < |statuses| => Block(payloads[i], statuses[i] & 0x01)))
  {
    var n := |statuses|;
    var data := BlocksAnswer(statuses, payloads);
    BlocksAnswerLength(statuses, payloads, k);
    assert |data| > 0 by {
      MulMono(1, n, k + 1);
    }
    forall i | 0 <= i < n
      ensures BlockAt(data, n, i) == Block(payloads[i], statuses[i] & 0x01)
    {
      BlockAtAnswer(statuses, payloads, k, i);
    }
    assert BlocksPrefix(data, n, n) == seq(n, i requires 0 <= i < n => Block(payloads[i], statuses[i] & 0x01));
  }

  // ---------------------------------------------------------------------------------------
  // Specifications of the commands on the link

  function GetSystemInfoIo(s: Script): (io: Io<SystemInfo>)
    ensures io.sent == [ExchangeApdu(SystemInfoFrame())]
    ensures io.result.Success? ==>
              ExchangeIo(s, SystemInfoFrame()).result.Success?
              && io.result == SystemInfoOf(ExchangeIo(s, SystemInfoFrame()).result.value)
  {
    var e := ExchangeIo(s, SystemInfoFrame());
    if e.result.Failure? then Fail(e) else Io(SystemInfoOf(e.result.value), e.sent, e.rest)
  }

  function GetExtendedSystemInfoIo(s: Script): (io: Io<ExtendedSystemInfo>)
    ensures io.sent == [ExchangeApdu(ExtendedSystemInfoFrame())]
    ensures io.result.Success? ==>
              ExchangeIo(s, ExtendedSystemInfoFrame()).result.Success?
              && io.result == ExtendedSystemInfoOf(ExchangeIo(s, ExtendedSystemInfoFrame()).result.value)
  {
    var e := ExchangeIo(s, ExtendedSystemInfoFrame());
    if e.result.Failure? then Fail(e) else Io(ExtendedSystemInfoOf(e.result.value), e.sent, e.rest)
  }

  function ReadSingleBlockIo(s: Script, blockNumber: int): (io: Io<SingleBlock>)
    ensures !(0 <= blockNumber < 256) ==> io == Io(Failure(ByteOutOfRange), [], s)
    ensures 0 <= blockNumber < 256 ==> io.sent == [ExchangeApdu(ReadSingleBlockFrame(ToByte(blockNumber)))]
    ensures 0 <= blockNumber < 256 ==>
              var e := ExchangeIo(s, ReadSingleBlockFrame(ToByte(blockNumber)));
              && (e.result.Failure? ==> io.result.Failure?)
              && (e.result.Success? ==> io.result == SingleBlockOf(e.result.value))
    ensures io.result.Success? ==>
              0 <= blockNumber < 256 && ExchangeIo(s, ReadSingleBlockFrame(ToByte(blockNumber))).result.Success?
  {
    if !(0 <= blockNumber < 256) then Io(Failure(ByteOutOfRange), [], s)
    else
      var e := ExchangeIo(s, ReadSingleBlockFrame(ToByte(blockNumber)));
      if e.result.Failure? then Fail(e) else Io(SingleBlockOf(e.result.value), e.sent, e.rest)
  }

  function ReadMultipleBlocksIo(s: Script, start: int, numBlocks: int): (io: Io<seq<Block>>)
    ensures numBlocks < 1 ==> io == Io(Failure(NoBlockRequested), [], s)
    ensures numBlocks >= 1 && !(0 <= start < 0x10000 && numBlocks <= 0x10000) ==>
      io == Io(Failure(IntTooBig), [], s)
    ensures 1 <= numBlocks <= 0x10000 && 0 <= start < 0x10000 ==>
      io.sent == [ExchangeApdu(ReadMultipleBlocksFrame(start, numBlocks))]
    ensures io.result.Success? ==> |io.result.value| == numBlocks
    ensures 1 <= numBlocks <= 0x10000 && 0 <= start < 0x10000 ==>
              var e := ExchangeIo(s, ReadMultipleBlocksFrame(start, numBlocks));
              && (e.result.Failure? ==> io.result.Failure?)
              && (e.result.Success? ==> io.result == BlocksOf(e.result.value, numBlocks))
    ensures io.result.Success? ==>
              1 <= numBlocks <= 0x10000 && 0 <= start < 0x10000
              && ExchangeIo(s, ReadMultipleBlocksFrame(start, numBlocks)).result.Success?
  {
    if numBlocks < 1 then Io(Failure(NoBlockRequested), [], s)
    else if !(0 <= start < 0x10000 && numBlocks <= 0x10000) then Io(Failure(IntTooBig), [], s)
    else
      var e := ExchangeIo(s, ReadMultipleBlocksFrame(start, numBlocks));
      if e.result.Failure? then Fail(e) else Io(BlocksOf(e.result.value, numBlocks), e.sent, e.rest)
  }

  // ---------------------------------------------------------------------------------------
  // The command layer object

  class Iso15693 {
    const reader: Acr1552

    constructor (reader: Acr1552)
      ensures this.reader == reader
    {
      this.reader := reader;
    }

    method GetSystemInfo() returns (r: Result<SystemInfo>)
      modifies reader
      ensures reader.Performed(GetSystemInfoIo(old(reader.script)), r)
    {
      var data := reader.TransmitIso15693(SystemInfoFrame());
      if data.Failure? {
        return Failure(data.error);
      }
      r := DecodeSystemInfo(data.value);
    }

    method GetExtendedSystemInfo() returns (r: Result<ExtendedSystemInfo>)
      modifies reader
      ensures reader.Performed(GetExtendedSystemInfoIo(old(reader.script)), r)
    {
      var data := reader.TransmitIso15693(ExtendedSystemInfoFrame());
      if data.Failure? {
        return Failure(data.error);
      }
      r := DecodeExtendedSystemInfo(data.value);
    }

    method ReadSingleBlock(blockNumber: int) returns (r: Result<SingleBlock>)
      modifies reader
      ensures reader.Performed(ReadSingleBlockIo(old(reader.script), blockNumber), r)
    {
      if !(0 <= blockNumber < 256) {
        return Failure(ByteOutOfRange);
      }
      var data := reader.TransmitIso15693(ReadSingleBlockFrame(ToByte(blockNumber)));
      if data.Failure? {
        return Failure(data.error);
      }
      r := SingleBlockOf(data.value);
    }

    method ReadMultipleBlocks(start: int, numBlocks: int) returns (r: Result<seq<Block>>)
      modifies reader
      ensures reader.Performed(ReadMultipleBlocksIo(old(reader.script), start, numBlocks), r)
    {
      if numBlocks < 1 {
        return Failure(NoBlockRequested);
      }
      if !(0 <= start < 0x10000 && numBlocks <= 0x10000) {
        return Failure(IntTooBig);
      }
      var data := reader.TransmitIso15693(ReadMultipleBlocksFrame(start, numBlocks));
      if data.Failure? {
        return Failure(data.error);
      }
      r := SplitBlocks(data.value, numBlocks);
    }
  }
}

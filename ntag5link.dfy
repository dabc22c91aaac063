/**
 * The NXP NTAG 5 link vendor commands: the NXP system-information block, configuration
 * pages (read, decode, read-modify-write), SRAM and the I2C master tunnel with its status
 * byte, and the energy-harvesting controls.
 *
 * Every vendor frame is `[flags, command, manufacturer code 0x04, ...]`.  Counts go on the
 * wire as (n - 1) and are refused before anything is sent when n is below one.
 */
module Ntag5Link {
  import opened Errors
  import opened Bytes
  import opened Reader
  import Iso15693

  // Command codes
  const CmdNxpSystemInfo: bv8 := 0xAB
  const CmdReadConfig: bv8 := 0xC0
  const CmdWriteConfig: bv8 := 0xC1
  const CmdReadSram: bv8 := 0xD2
  const CmdReadI2c: bv8 := 0xD5
  const CmdWriteI2c: bv8 := 0xD4
  const ManufacturerNxp: bv8 := 0x04

  // Configuration addresses
  const ConfigPage: bv8 := 0x37
  const EhConfigRegister: bv8 := 0xA7
  const I2cMasterStatusRegister: bv8 := 0xAD
  const EhConfigPage: bv8 := 0x3D

  // I2C master status bits
  const I2cWatchdogExpired: bv8 := 0x08
  const I2cTransactionStatus: bv8 := 0x06
  const I2cBusy: bv8 := 0x01
  const StatusReset: bv8 := 0x00
  const StatusAddressNak: bv8 := 0x02
  const StatusDataNak: bv8 := 0x04
  const StatusSuccess: bv8 := 0x06

  // Energy harvesting register bits
  const EhEnable: bv8 := 0x01
  const EhTrigger: bv8 := 0x08
  const EhLoadOk: bv8 := 0x80
  const EhDisablePowerCheck: bv8 := 0x08

  /** Whether any bit of `mask` is set in `b`. */
  function Has(b: bv8, mask: bv8): bool {
    b & mask != 0
  }

  /** `mask if on else 0x00` */
  function Flag(on: bool, mask: bv8): bv8 {
    if on then mask else 0x00
  }

  // ---------------------------------------------------------------------------------------
  // Frames

  /** `[flags, command, NXP, parameter, count - 1]`: the shape of every vendor read. */
  function VendorRead(command: bv8, parameter: bv8, countMinusOne: bv8): (frame: seq<bv8>)
    ensures |frame| == 5 && frame[2] == ManufacturerNxp
  {
    [Iso15693.FlagDataRate, command, ManufacturerNxp, parameter, countMinusOne]
  }

  /**
   * A vendor read whose count is checked as the source checks it: a count below one is
   * refused with `tooFew` before anything is sent, and (count - 1) must fit in a byte.
   */
  function CountedReadIo(s: Script, command: bv8, parameter: bv8, count: int, tooFew: Error): (io: Io<seq<bv8>>)
    ensures count < 1 ==> io == Io(Failure(tooFew), [], s)
    ensures count > 256 ==> io == Io(Failure(ByteOutOfRange), [], s)
    ensures 1 <= count <= 256 ==> io == ExchangeIo(s, VendorRead(command, parameter, ToByte(count - 1)))
  {
    if count < 1 then Io(Failure(tooFew), [], s)
    else if count > 256 then Io(Failure(ByteOutOfRange), [], s)
    else ExchangeIo(s, VendorRead(command, parameter, ToByte(count - 1)))
  }

  /** `read_config_block`: `numBlocks` four-byte blocks from configuration address `address`. */
  function ReadConfigBlockIo(s: Script, address: bv8, numBlocks: int): (io: Io<seq<bv8>>)
    ensures numBlocks < 1 ==> io.result == Failure(NoBlockRequested) && io.sent == [] && io.rest == s
    ensures 1 <= numBlocks <= 256 ==>
              io.sent == [ExchangeApdu(VendorRead(CmdReadConfig, address, ToByte(numBlocks - 1)))]
    ensures 1 <= numBlocks <= 256 ==> VendorRead(CmdReadConfig, address, ToByte(numBlocks - 1))[4] as int == numBlocks - 1
    ensures io.result.Success? ==> s != [] && io.rest == s[1..]
  {
    CountedReadIo(s, CmdReadConfig, address, numBlocks, NoBlockRequested)
  }

  /** `read_sram`: `numBlocks` four-byte SRAM blocks from block `address`. */
  function ReadSramIo(s: Script, address: bv8, numBlocks: int): (io: Io<seq<bv8>>)
    ensures numBlocks < 1 ==> io.result == Failure(NoBlockRequested) && io.sent == [] && io.rest == s
    ensures 1 <= numBlocks <= 256 ==>
              io.sent == [ExchangeApdu(VendorRead(CmdReadSram, address, ToByte(numBlocks - 1)))]
    ensures io.result.Success? ==> s != [] && io.rest == s[1..]
  {
    CountedReadIo(s, CmdReadSram, address, numBlocks, NoBlockRequested)
  }

  /**
   * The slave parameter byte: the 7-bit address (`& 0x7F`, which is Euclidean `% 128` on
   * Python's unbounded integers), with bit 7 set when no stop condition is wanted.
   */
  function SlaveParameter(slave: int, stop: bool): (p: bv8)
    ensures (p & 0x7F) as int == slave % 128
    ensures p & 0x80 == 0 <==> stop
  {
    ToByte(slave % 128) | (if stop then 0x00 else 0x80)
  }

  /** `read_i2c`: ask the tag's I2C master to read `numBytes` bytes from `slave` into SRAM. */
  function ReadI2cIo(s: Script, slave: int, numBytes: int, stop: bool): (io: Io<seq<bv8>>)
    ensures numBytes < 1 ==> io.result == Failure(NoByteRequested) && io.sent == [] && io.rest == s
    ensures 1 <= numBytes <= 256 ==>
              io.sent == [ExchangeApdu(VendorRead(CmdReadI2c, SlaveParameter(slave, stop), ToByte(numBytes - 1)))]
    ensures io.result.Success? ==> s != [] && io.rest == s[1..]
  {
    CountedReadIo(s, CmdReadI2c, SlaveParameter(slave, stop), numBytes, NoByteRequested)
  }

  /** `[flags, 0xD4, NXP, parameter, len - 1] ++ data` */
  function WriteI2cFrame(parameter: bv8, data: seq<bv8>): (frame: seq<bv8>)
    requires 1 <= |data| <= 256
    ensures |frame| == 5 + |data| && frame[5..] == data
    ensures frame[4] as int == |data| - 1
  {
    [Iso15693.FlagDataRate, CmdWriteI2c, ManufacturerNxp, parameter, ToByte(|data| - 1)] + data
  }

  /** `write_i2c`: ask the tag's I2C master to write `data` to `slave`. */
  function WriteI2cIo(s: Script, slave: int, data: seq<bv8>, stop: bool): (io: Io<seq<bv8>>)
    ensures |data| < 1 ==> io == Io(Failure(NoByteToWrite), [], s)
    ensures |data| > 256 ==> io == Io(Failure(ByteOutOfRange), [], s)
    ensures 1 <= |data| <= 256 ==> io == ExchangeIo(s, WriteI2cFrame(SlaveParameter(slave, stop), data))
  {
    if |data| < 1 then Io(Failure(NoByteToWrite), [], s)
    else if |data| > 256 then Io(Failure(ByteOutOfRange), [], s)
    else ExchangeIo(s, WriteI2cFrame(SlaveParameter(slave, stop), data))
  }

  /** `[flags, 0xC1, NXP, address] ++ block` */
  function WriteConfigBlockFrame(address: bv8, block: seq<bv8>): (frame: seq<bv8>)
    requires |block| == 4
    ensures |frame| == 8 && frame[3] == address && frame[4..] == block
  {
    [Iso15693.FlagDataRate, CmdWriteConfig, ManufacturerNxp, address] + block
  }

  /** `write_config_block`: a block that is not exactly four bytes is refused before sending. */
  function WriteConfigBlockIo(s: Script, address: bv8, block: seq<bv8>): (io: Io<()>)
    ensures |block| != 4 ==> io == Io(Failure(BlockNotFourBytes), [], s)
    ensures |block| == 4 ==> io.sent == [ExchangeApdu(WriteConfigBlockFrame(address, block))]
    ensures io.result.Success? <==>
              |block| == 4 && ExchangeIo(s, WriteConfigBlockFrame(address, block)).result.Success?
    ensures io.result.Success? ==> s != [] && io.rest == s[1..]
  {
    if |block| != 4 then Io(Failure(BlockNotFourBytes), [], s)
    else
      var e := ExchangeIo(s, WriteConfigBlockFrame(address, block));
      if e.result.Failure? then Fail(e) else Io(Success(()), e.sent, e.rest)
  }

  // ---------------------------------------------------------------------------------------
  // The NXP system-information block

  function NxpInfoFrame(): seq<bv8> {
    [Iso15693.FlagDataRate, CmdNxpSystemInfo, ManufacturerNxp]
  }

  datatype PpCondition = PpCondition(
    readProtectPage0L: bool, writeProtectPage0L: bool, readProtectPage0H: bool, writeProtectPage0H: bool)

  datatype LockBits = LockBits(easLocked: bool, dsfidLocked: bool, nfcPpArea0HLocked: bool)

  /** The interface field of feature byte 3; all four codes have a name. */
  datatype Interface = OnlyNfc | Gpio | RfuInterface | GpioI2c

  datatype Features = Features(
    // feature byte 0
    userMemoryProtection: bool, counter: bool, easId: bool, easProtection: bool,
    afiProtection: bool, inventoryReadExt: bool, easIr: bool, cid: bool,
    // feature byte 1
    persistentQuiet: bool, nfcPrivacy: bool, destroy: bool, writeCid: bool, highBitrates: bool,
    // feature byte 2
    originalitySignature: bool,
    // feature byte 3
    extendedFlagsPresent: bool, interface: Interface, numKeys: bv8)

  datatype NxpInfo = NxpInfo(
    protectionPage: bv8, ppCondition: PpCondition, lockBits: LockBits, features: Features,
    extendedFlags: Option<seq<bv8>>)

  function PpConditionOf(b: bv8): PpCondition {
    PpCondition(Has(b, 0x01), Has(b, 0x02), Has(b, 0x10), Has(b, 0x20))
  }

  function LockBitsOf(b: bv8): LockBits {
    LockBits(Has(b, 0x02), Has(b, 0x04), Has(b, 0x08))
  }

  function InterfaceOf(code: bv8): (i: Interface)
    requires code < 4
  {
    if code == 0 then OnlyNfc else if code == 1 then Gpio else if code == 2 then RfuInterface else GpioI2c
  }

  function InterfaceCode(i: Interface): (code: bv8)
    ensures code < 4 && InterfaceOf(code) == i
  {
    match i
    case OnlyNfc => 0
    case Gpio => 1
    case RfuInterface => 2
    case GpioI2c => 3
  }

  function FeaturesOf(b0: bv8, b1: bv8, b2: bv8, b3: bv8): (f: Features)
    ensures f.numKeys == b3 & 0x0F && f.numKeys < 16
    ensures f.interface == InterfaceOf((b3 & 0x60) >> 5)
    ensures f.extendedFlagsPresent <==> b3 & 0x80 != 0
  {
    Features(
      Has(b0, 0x01), Has(b0, 0x02), Has(b0, 0x04), Has(b0, 0x08),
      Has(b0, 0x10), Has(b0, 0x20), Has(b0, 0x40), Has(b0, 0x80),
      Has(b1, 0x04), Has(b1, 0x10), Has(b1, 0x20), Has(b1, 0x40), Has(b1, 0x80),
      Has(b2, 0x01),
      Has(b3, 0x80), InterfaceOf((b3 & 0x60) >> 5), b3 & 0x0F)
  }

  /**
   * `get_nxp_info`'s decoding: bytes 0..2 are indexed (IndexError when short), bytes 3..6 are
   * unpacked from a slice (ValueError when fewer than four), and the extended feature flags
   * are the slice 7..11, present only when bit 7 of feature byte 3 is set.
   */
  function NxpInfoOf(data: seq<bv8>): (r: Result<NxpInfo>)
    ensures r.Success? <==> |data| >= 7
    ensures |data| < 3 ==> r == Failure(IndexOutOfRange)
    ensures 3 <= |data| < 7 ==> r == Failure(UnpackMismatch)
    ensures r.Success? ==> r.value.protectionPage == data[0] && r.value.features.numKeys == data[6] & 0x0F
    ensures r.Success? ==> (r.value.extendedFlags.Some? <==> data[6] & 0x80 != 0)
    ensures r.Success? && r.value.extendedFlags.Some? ==> r.value.extendedFlags.value == Slice(data, 7, 11)
  {
    var protectionPage :- ByteAt(data, 0);
    var ppCondition :- ByteAt(data, 1);
    var lockBits :- ByteAt(data, 2);
    if |data| < 7 then Failure(UnpackMismatch)
    else
      Success(NxpInfo(protectionPage, PpConditionOf(ppCondition), LockBitsOf(lockBits),
                      FeaturesOf(data[3], data[4], data[5], data[6]),
                      if data[6] & 0x80 != 0 then Some(Slice(data, 7, 11)) else None))
  }

  /** The encoder partner: the bytes a tag sends for `info`, with every unnamed bit clear. */
  predicate WellFormedNxpInfo(info: NxpInfo) {
    info.features.numKeys < 16
    && (info.extendedFlags.Some? <==> info.features.extendedFlagsPresent)
    && (info.extendedFlags.Some? ==> |info.extendedFlags.value| == 4)
  }

  function PpConditionByte(c: PpCondition): bv8 {
    Flag(c.readProtectPage0L, 0x01) | Flag(c.writeProtectPage0L, 0x02)
    | Flag(c.readProtectPage0H, 0x10) | Flag(c.writeProtectPage0H, 0x20)
  }

  function LockBitsByte(l: LockBits): bv8 {
    Flag(l.easLocked, 0x02) | Flag(l.dsfidLocked, 0x04) | Flag(l.nfcPpArea0HLocked, 0x08)
  }

  function FeatureBytes(f: Features): (b: seq<bv8>)
    requires f.numKeys < 16
    ensures |b| == 4
  {
    [Flag(f.userMemoryProtection, 0x01) | Flag(f.counter, 0x02) | Flag(f.easId, 0x04)
     | Flag(f.easProtection, 0x08) | Flag(f.afiProtection, 0x10) | Flag(f.inventoryReadExt, 0x20)
     | Flag(f.easIr, 0x40) | Flag(f.cid, 0x80),
     Flag(f.persistentQuiet, 0x04) | Flag(f.nfcPrivacy, 0x10) | Flag(f.destroy, 0x20)
     | Flag(f.writeCid, 0x40) | Flag(f.highBitrates, 0x80),
     Flag(f.originalitySignature, 0x01),
     Flag(f.extendedFlagsPresent, 0x80) | (InterfaceCode(f.interface) << 5) | f.numKeys]
  }

  function NxpInfoBytes(info: NxpInfo): (data: seq<bv8>)
    requires WellFormedNxpInfo(info)
  {
    [info.protectionPage, PpConditionByte(info.ppCondition), LockBitsByte(info.lockBits)]
    + FeatureBytes(info.features)
    + (if info.extendedFlags.Some? then info.extendedFlags.value else [])
  }

  lemma PpConditionRoundTrip(c: PpCondition)
    ensures PpConditionOf(PpConditionByte(c)) == c
  {
  }

  lemma LockBitsRoundTrip(l: LockBits)
    ensures LockBitsOf(LockBitsByte(l)) == l
  {
  }

  lemma FeatureByte0RoundTrip(f: Features)
    requires f.numKeys < 16
    ensures var b := FeatureBytes(f)[0];
      Has(b, 0x01) == f.userMemoryProtection && Has(b, 0x02) == f.counter && Has(b, 0x04) == f.easId
      && Has(b, 0x08) == f.easProtection && Has(b, 0x10) == f.afiProtection
      && Has(b, 0x20) == f.inventoryReadExt && Has(b, 0x40) == f.easIr && Has(b, 0x80) == f.cid
  {
  }

  lemma FeatureByte1RoundTrip(f: Features)
    requires f.numKeys < 16
    ensures var b := FeatureBytes(f)[1];
      Has(b, 0x04) == f.persistentQuiet && Has(b, 0x10) == f.nfcPrivacy && Has(b, 0x20) == f.destroy
      && Has(b, 0x40) == f.writeCid && Has(b, 0x80) == f.highBitrates
  {
  }

  lemma FeatureByte3RoundTrip(f: Features)
    requires f.numKeys < 16
    ensures var b := FeatureBytes(f)[3];
      Has(b, 0x80) == f.extendedFlagsPresent && (b & 0x60) >> 5 == InterfaceCode(f.interface)
      && b & 0x0F == f.numKeys
  {
  }

  lemma FeaturesRoundTrip(f: Features)
    requires f.numKeys < 16
    ensures var b := FeatureBytes(f); FeaturesOf(b[0], b[1], b[2], b[3]) == f
  {
    FeatureByte0RoundTrip(f);
    FeatureByte1RoundTrip(f);
    FeatureByte3RoundTrip(f);
  }

  /** Decoding what the encoder produced gives back the same information. */
  lemma NxpInfoRoundTrip(info: NxpInfo)
    requires WellFormedNxpInfo(info)
    ensures NxpInfoOf(NxpInfoBytes(info)) == Success(info)
  {
    var data := NxpInfoBytes(info);
    var f := FeatureBytes(info.features);
    assert data[3..7] == f;
    PpConditionRoundTrip(info.ppCondition);
    LockBitsRoundTrip(info.lockBits);
    FeaturesRoundTrip(info.features);
    if info.extendedFlags.Some? {
      assert Slice(data, 7, 11) == info.extendedFlags.value;
    }
  }

  // ---------------------------------------------------------------------------------------
  // The configuration page 0x37

  datatype EhMode = Rfu0 | Rfu1 | LowFieldStrength | HighFieldStrength
  datatype TransferDirection = TagToReader | ReaderToTag
  datatype ArbiterMode = Normal | SramMirror | SramPassThrough | SramPhdc
  datatype UseCase = I2cSlave | I2cMaster | GpioPwm | Tristate
  datatype SlewRate = NormalRate | FastRate
  datatype PadIn = Disabled | PlainPullUp | Plain | PlainPullDown

  datatype Config0 = Config0(
    autoStandbyModeEnabled: bool, lockSessionRegister: bool, ehMode: EhMode, sramCopyEnabled: bool)

  datatype Config1 = Config1(
    ptTransferDirection: TransferDirection, sramEnabled: bool, arbiterMode: ArbiterMode,
    useCase: UseCase, ehArbiterModeEnabled: bool)

  datatype Config2 = Config2(
    gpio0SlewRate: SlewRate, gpio1SlewRate: SlewRate, lockBlockCommandSupported: bool,
    extendedCommandsSupported: bool, gpio0PadIn: PadIn, gpio1PadIn: PadIn)

  datatype ConfigInfo = ConfigInfo(config0: Config0, config1: Config1, config2: Config2)

  /** The energy-harvesting mode field (bits 2-3 of byte 0); every code has a name. */
  function EhModeOf(bits: bv8): (m: EhMode)
    requires bits & 0xF3 == 0
  {
    if bits == 0x08 then LowFieldStrength
    else if bits == 0x0C then HighFieldStrength
    else if bits == 0x00 then Rfu0
    else Rfu1
  }

  /** The driver's constant for each mode. */
  function EhModeBits(m: EhMode): (bits: bv8)
    ensures bits & 0xF3 == 0 && EhModeOf(bits) == m
  {
    match m
    case Rfu0 => 0x00
    case Rfu1 => 0x04
    case LowFieldStrength => 0x08
    case HighFieldStrength => 0x0C
  }

  function ArbiterModeOf(bits: bv8): ArbiterMode
    requires bits & 0xF3 == 0
  {
    if bits == 0x00 then Normal else if bits == 0x04 then SramMirror
    else if bits == 0x08 then SramPassThrough else SramPhdc
  }

  function ArbiterModeBits(a: ArbiterMode): (bits: bv8)
    ensures bits & 0xF3 == 0 && ArbiterModeOf(bits) == a
  {
    match a
    case Normal => 0x00
    case SramMirror => 0x04
    case SramPassThrough => 0x08
    case SramPhdc => 0x0C
  }

  function UseCaseOf(bits: bv8): UseCase
    requires bits & 0xCF == 0
  {
    if bits == 0x00 then I2cSlave else if bits == 0x10 then I2cMaster
    else if bits == 0x20 then GpioPwm else Tristate
  }

  function UseCaseBits(u: UseCase): (bits: bv8)
    ensures bits & 0xCF == 0 && UseCaseOf(bits) == u
  {
    match u
    case I2cSlave => 0x00
    case I2cMaster => 0x10
    case GpioPwm => 0x20
    case Tristate => 0x30
  }

  /** A pad setting from its two-bit field, already shifted down. */
  function PadInOf(code: bv8): PadIn
    requires code < 4
  {
    if code == 0 then Disabled else if code == 1 then PlainPullUp else if code == 2 then Plain else PlainPullDown
  }

  function PadInCode(p: PadIn): (code: bv8)
    ensures code < 4 && PadInOf(code) == p
  {
    match p
    case Disabled => 0
    case PlainPullUp => 1
    case Plain => 2
    case PlainPullDown => 3
  }

  function Config0Of(b0: bv8): Config0 {
    Config0(Has(b0, 0x01), Has(b0, 0x02), EhModeOf(b0 & 0x0C), Has(b0, 0x80))
  }

  function Config1Of(b1: bv8): Config1 {
    Config1(if Has(b1, 0x01) then ReaderToTag else TagToReader, Has(b1, 0x02),
            ArbiterModeOf(b1 & 0x0C), UseCaseOf(b1 & 0x30), Has(b1, 0x80))
  }

  function Config2Of(b2: bv8): Config2 {
    Config2(if Has(b2, 0x01) then FastRate else NormalRate, if Has(b2, 0x02) then FastRate else NormalRate,
            Has(b2, 0x04), Has(b2, 0x08), PadInOf((b2 & 0x30) >> 4), PadInOf((b2 & 0xC0) >> 6))
  }

  /** `get_config_info`'s decoding: the first three bytes of the page, unpacked. */
  function ConfigInfoOf(page: seq<bv8>): (r: Result<ConfigInfo>)
    ensures r.Success? <==> |page| >= 3
    ensures r.Failure? ==> r.error == UnpackMismatch
    ensures r.Success? ==> r.value.config0.ehMode == EhModeOf(page[0] & 0x0C)
    ensures r.Success? ==> r.value.config2.gpio1PadIn == PadInOf(page[2] >> 6)
  {
    if |page| < 3 then Failure(UnpackMismatch)
    else Success(ConfigInfo(Config0Of(page[0]), Config1Of(page[1]), Config2Of(page[2])))
  }

  /** Byte 0 as `write_config0` composes it; `ehMode` is one of the driver's mode constants. */
  function Config0Byte(autoStandby: bool, lockSession: bool, ehMode: bv8, sramCopy: bool): bv8 {
    Flag(autoStandby, 0x01) | Flag(lockSession, 0x02) | ehMode | Flag(sramCopy, 0x80)
  }

  /** Byte 1 as `write_config1` composes it. */
  function Config1Byte(transferDirInverse: bool, sramEnable: bool, arbiterMode: bv8, useCase: bv8,
                       arbiterModeEnable: bool): bv8 {
    Flag(transferDirInverse, 0x01) | Flag(sramEnable, 0x02) | arbiterMode | useCase | Flag(arbiterModeEnable, 0x80)
  }

  /** Byte 2 as `write_config2` evidently intends to compose it, from its own parameters. */
  function Config2Byte(gpio0SlewFast: bool, gpio1SlewFast: bool, lockBlockSupported: bool,
                       extendedCommandsSupported: bool, gpio0In: bv8, gpio1In: bv8): bv8 {
    Flag(gpio0SlewFast, 0x01) | Flag(gpio1SlewFast, 0x02) | Flag(lockBlockSupported, 0x04)
    | Flag(extendedCommandsSupported, 0x08) | gpio0In | gpio1In
  }

  /** What `write_config0` writes, `get_config_info` reads back. */
  lemma Config0RoundTrip(autoStandby: bool, lockSession: bool, ehMode: EhMode, sramCopy: bool)
    ensures Config0Of(Config0Byte(autoStandby, lockSession, EhModeBits(ehMode), sramCopy))
            == Config0(autoStandby, lockSession, ehMode, sramCopy)
  {
    var bits := EhModeBits(ehMode);
    assert Config0Byte(autoStandby, lockSession, bits, sramCopy) & 0x0C == bits;
  }

  /** What `write_config1` writes, `get_config_info` reads back. */
  lemma Config1RoundTrip(transferDirInverse: bool, sramEnable: bool, arbiterMode: ArbiterMode,
                         useCase: UseCase, arbiterModeEnable: bool)
    ensures Config1Of(Config1Byte(transferDirInverse, sramEnable, ArbiterModeBits(arbiterMode),
                                  UseCaseBits(useCase), arbiterModeEnable))
            == Config1(if transferDirInverse then ReaderToTag else TagToReader, sramEnable,
                       arbiterMode, useCase, arbiterModeEnable)
  {
    var a := ArbiterModeBits(arbiterMode);
    var u := UseCaseBits(useCase);
    var b := Config1Byte(transferDirInverse, sramEnable, a, u, arbiterModeEnable);
    assert b & 0x0C == a;
    assert b & 0x30 == u;
  }

  /** What the corrected `write_config2` writes, `get_config_info` reads back. */
  lemma Config2RoundTrip(gpio0SlewFast: bool, gpio1SlewFast: bool, lockBlockSupported: bool,
                         extendedCommandsSupported: bool, gpio0In: PadIn, gpio1In: PadIn)
    ensures Config2Of(Config2Byte(gpio0SlewFast, gpio1SlewFast, lockBlockSupported, extendedCommandsSupported,
                                  PadInCode(gpio0In) << 4, PadInCode(gpio1In) << 6))
            == Config2(if gpio0SlewFast then FastRate else NormalRate, if gpio1SlewFast then FastRate else NormalRate,
                       lockBlockSupported, extendedCommandsSupported, gpio0In, gpio1In)
  {
    var p0 := PadInCode(gpio0In);
    var p1 := PadInCode(gpio1In);
    var b := Config2Byte(gpio0SlewFast, gpio1SlewFast, lockBlockSupported, extendedCommandsSupported, p0 << 4, p1 << 6);
    assert (b & 0x30) >> 4 == p0;
    assert (b & 0xC0) >> 6 == p1;
  }

  // ---------------------------------------------------------------------------------------
  // Energy harvesting and event detection (page 0x3D)

  /** Output current selection names, indexed by bits 4-6 of byte 0. */
  const CurrentNames: seq<string> := ["0.4", "0.6", "1.4", "2.7", "4.0", "6.5", "9.0", "12.5"]

  /** Output voltage selection names, indexed by bits 1-2 of byte 0. */
  const VoltageNames: seq<string> := ["1.8", "2.4", "3.0", "RFU"]

  /** Event detection modes, indexed by the low nibble of byte 2. */
  const EdConfigNames: seq<string> := [
    "disable", "nfc_field_detect", "pwm", "i2c_to_nfc_pass_through", "nfc_to_i2c_pass_through",
    "arbiter_lock", "ndef_msg_tlv_length", "standby_mode", "write_cmd_indication",
    "read_cmd_indication", "start_of_command_indication", "read_from_synch_block",
    "write_to_synch_block", "software_interrupt", "rfu1", "rfu2"]

  datatype EhEdConfig = EhEdConfig(
    ehVoutISel: string, disablePowerCheck: bool, ehVoutVSel: string, ehEnable: bool, edConfig: string)

  /** `get_eh_ed_config_info`'s decoding: byte 0 is indexed first, then byte 2. */
  function EhEdConfigOf(page: seq<bv8>): (r: Result<EhEdConfig>)
    ensures r.Success? <==> |page| >= 3
    ensures r.Failure? ==> r.error == IndexOutOfRange
    ensures r.Success? ==> r.value.ehVoutISel in CurrentNames && r.value.ehVoutVSel in VoltageNames
    ensures r.Success? ==> r.value.edConfig in EdConfigNames
    ensures r.Success? ==> (r.value.ehEnable <==> page[0] & 0x01 != 0)
    ensures r.Success? ==> (r.value.disablePowerCheck <==> page[0] & 0x08 != 0)
  {
    var b0 :- ByteAt(page, 0);
    var b2 :- ByteAt(page, 2);
    Success(EhEdConfig(CurrentNames[((b0 & 0x70) >> 4) as int], Has(b0, EhDisablePowerCheck),
                       VoltageNames[((b0 & 0x06) >> 1) as int], Has(b0, EhEnable),
                       EdConfigNames[(b2 & 0x0F) as int]))
  }

  /** The block `write_eh_ed_config` writes: `[EH config, 0, ED config, 0]`. */
  function EhEdConfigBlock(enable: bool, disablePowerCheck: bool, current: bv8, voltage: bv8, edConfig: bv8): (b: seq<bv8>)
    ensures |b| == 4 && b[1] == 0 && b[3] == 0 && b[2] == edConfig
  {
    [Flag(enable, EhEnable) | Flag(disablePowerCheck, EhDisablePowerCheck) | voltage | current, 0x00, edConfig, 0x00]
  }

  /** The selection names are pairwise distinct, so a decoded name determines its code. */
  lemma NamesDistinct()
    ensures forall i, j | 0 <= i < j < |CurrentNames| :: CurrentNames[i] != CurrentNames[j]
    ensures forall i, j | 0 <= i < j < |VoltageNames| :: VoltageNames[i] != VoltageNames[j]
    ensures forall i, j | 0 <= i < j < |EdConfigNames| :: EdConfigNames[i] != EdConfigNames[j]
  {
  }

  /**
   * What `write_eh_ed_config` writes, `get_eh_ed_config_info` reads back: current code `c`
   * (written as `c << 4`), voltage code `v` (written as `v << 1`) and event-detection mode.
   */
  lemma EhEdConfigRoundTrip(enable: bool, disablePowerCheck: bool, current: bv8, voltage: bv8, edConfig: bv8)
    requires current < 8 && voltage < 4 && edConfig < 16
    ensures EhEdConfigOf(EhEdConfigBlock(enable, disablePowerCheck, current << 4, voltage << 1, edConfig))
            == Success(EhEdConfig(CurrentNames[current as int], disablePowerCheck, VoltageNames[voltage as int], enable,
                                  EdConfigNames[edConfig as int]))
  {
    var b0 := EhEdConfigBlock(enable, disablePowerCheck, current << 4, voltage << 1, edConfig)[0];
    assert (b0 & 0x70) >> 4 == current;
    assert (b0 & 0x06) >> 1 == voltage;
    assert b0 & 0x01 != 0 <==> enable;
    assert b0 & 0x08 != 0 <==> disablePowerCheck;
  }

  // ---------------------------------------------------------------------------------------
  // The I2C master status byte

  /**
   * `check_i2c_write_result`'s reading of the status byte: watchdog first, then the
   * transaction status.  All four transaction codes are named, so it never answers False.
   */
  function WriteResultOf(status: bv8): (r: Result<bool>)
    ensures r.Success? <==> status & 0x0E == 0x06
    ensures r.Success? ==> r.value
    ensures status & I2cWatchdogExpired != 0 ==> r == Failure(WatchdogExpired)
    ensures status & 0x0E == 0x00 ==> r == Failure(TransactionReset)
    ensures status & 0x0E == 0x02 ==> r == Failure(AddressNotAcknowledged)
    ensures status & 0x0E == 0x04 ==> r == Failure(DataNotAcknowledged)
  {
    if status & I2cWatchdogExpired != 0 then Failure(WatchdogExpired)
    else
      var transaction := status & I2cTransactionStatus;
      if transaction == StatusReset then Failure(TransactionReset)
      else if transaction == StatusAddressNak then Failure(AddressNotAcknowledged)
      else if transaction == StatusDataNak then Failure(DataNotAcknowledged)
      else if transaction == StatusSuccess then Success(true)
      else Success(false)
  }

  /** Byte 0 of one block of configuration address `address`. */
  function StatusByteIo(s: Script, address: bv8): (io: Io<bv8>)
    ensures io.sent == [ExchangeApdu(VendorRead(CmdReadConfig, address, 0))]
    ensures io.result.Success? ==>
              var page := ReadConfigBlockIo(s, address, 1).result;
              page.Success? && |page.value| > 0 && io.result.value == page.value[0]
    ensures io.result.Success? ==> s != [] && io.rest == s[1..]
  {
    var read := ReadConfigBlockIo(s, address, 1);
    if read.result.Failure? then Fail(read)
    else Io(ByteAt(read.result.value, 0), read.sent, read.rest)
  }

  function CheckI2cWriteResultIo(s: Script): (io: Io<bool>)
    ensures io.sent == [ExchangeApdu(VendorRead(CmdReadConfig, I2cMasterStatusRegister, 0))]
    ensures io.result.Success? ==> io.result.value
    ensures StatusByteIo(s, I2cMasterStatusRegister).result.Failure? ==> io.result.Failure?
    ensures StatusByteIo(s, I2cMasterStatusRegister).result.Success? ==>
              io.result == WriteResultOf(StatusByteIo(s, I2cMasterStatusRegister).result.value)
  {
    var status := StatusByteIo(s, I2cMasterStatusRegister);
    if status.result.Failure? then Fail(status)
    else Io(WriteResultOf(status.result.value), status.sent, status.rest)
  }

  /** `check_i2c_busy`: bit 0 of the I2C master status byte. */
  function CheckI2cBusyIo(s: Script): (io: Io<bool>)
    ensures io.sent == [ExchangeApdu(VendorRead(CmdReadConfig, I2cMasterStatusRegister, 0))]
    ensures io.result.Success? ==>
              StatusByteIo(s, I2cMasterStatusRegister).result.Success?
              && (io.result.value <==> StatusByteIo(s, I2cMasterStatusRegister).result.value & I2cBusy != 0)
    ensures io.result.Success? ==> s != [] && io.rest == s[1..]
  {
    var status := StatusByteIo(s, I2cMasterStatusRegister);
    if status.result.Failure? then Fail(status)
    else Io(Success(Has(status.result.value, I2cBusy)), status.sent, status.rest)
  }

  /** `check_eh_load_ok`: bit 7 of the energy-harvesting register. */
  function CheckEhLoadOkIo(s: Script): (io: Io<bool>)
    ensures io.sent == [ExchangeApdu(VendorRead(CmdReadConfig, EhConfigRegister, 0))]
    ensures io.result.Success? ==>
              StatusByteIo(s, EhConfigRegister).result.Success?
              && (io.result.value <==> StatusByteIo(s, EhConfigRegister).result.value & EhLoadOk == EhLoadOk)
  {
    var status := StatusByteIo(s, EhConfigRegister);
    if status.result.Failure? then Fail(status)
    else Io(Success(status.result.value & EhLoadOk == EhLoadOk), status.sent, status.rest)
  }

  // ---------------------------------------------------------------------------------------
  // Writes

  /** `eh_control`: written directly, without reading the register first. */
  function EhControlIo(s: Script, trigger: bool, enable: bool): (io: Io<()>)
    ensures io.sent == [ExchangeApdu(WriteConfigBlockFrame(EhConfigRegister,
                          [Flag(trigger, EhTrigger) | Flag(enable, EhEnable), 0x00, 0x00, 0x00]))]
  {
    WriteConfigBlockIo(s, EhConfigRegister, [Flag(trigger, EhTrigger) | Flag(enable, EhEnable), 0x00, 0x00, 0x00])
  }

  /** `write_eh_ed_config`: written directly, without reading the page first. */
  function WriteEhEdConfigIo(s: Script, enable: bool, disablePowerCheck: bool, current: bv8, voltage: bv8,
                             edConfig: bv8): (io: Io<()>)
    ensures io.sent == [ExchangeApdu(WriteConfigBlockFrame(EhConfigPage,
                          EhEdConfigBlock(enable, disablePowerCheck, current, voltage, edConfig)))]
  {
    WriteConfigBlockIo(s, EhConfigPage, EhEdConfigBlock(enable, disablePowerCheck, current, voltage, edConfig))
  }

  /**
   * The read-modify-write of `write_config0/1/2`: read one block of page 0x37, replace byte
   * `index` (IndexError when the block is shorter), write the block back.
   */
  function ReplaceConfigByteIo(s: Script, index: nat, value: bv8): (io: Io<()>)
    ensures var read := ReadConfigBlockIo(s, ConfigPage, 1);
            && (io.result.Success? ==> read.result.Success? && index < |read.result.value|)
            && (read.result.Success? && index >= |read.result.value| ==>
                  io == Io(Failure(IndexOutOfRange), read.sent, read.rest))
  {
    var read := ReadConfigBlockIo(s, ConfigPage, 1);
    if read.result.Failure? then Fail(read)
    else if index >= |read.result.value| then Io(Failure(IndexOutOfRange), read.sent, read.rest)
    else After(read.sent, WriteConfigBlockIo(read.rest, ConfigPage, read.result.value[index := value]))
  }

  /**
   * The page is read before it is written, and the block written back differs from the
   * block read in byte `index` only; nothing is written unless the read succeeded.
   */
  lemma ReplaceConfigByteKeepsOthers(s: Script, index: nat, value: bv8)
    ensures var io := ReplaceConfigByteIo(s, index, value);
      var readFrame := VendorRead(CmdReadConfig, ConfigPage, 0);
      var page := ExchangeIo(s, readFrame).result;
      && io.sent[0] == ExchangeApdu(readFrame)
      && (io.result.Success? ==>
            page.Success? && |page.value| == 4 && index < 4 && |io.sent| == 2
            && (exists written: seq<bv8> ::
                  |written| == 4 && io.sent[1] == ExchangeApdu(WriteConfigBlockFrame(ConfigPage, written))
                  && written[index] == value
                  && forall k | 0 <= k < 4 && k != index :: written[k] == page.value[k]))
      && (page.Failure? ==> |io.sent| == 1 && io.result.Failure?)
  {
    var io := ReplaceConfigByteIo(s, index, value);
    ReplaceConfigByteReadsFirst(s, index, value);
    if io.result.Success? {
      var read := ReadConfigBlockIo(s, ConfigPage, 1);
      ReplaceConfigByteWritten(s, index, value);
      var written := read.result.value[index := value];
      assert |read.sent| == 1 && |io.sent| == 2;
      assert io.sent[1] == ExchangeApdu(WriteConfigBlockFrame(ConfigPage, written));
      assert |written| == 4 && written[index] == value;
      assert forall k | 0 <= k < 4 && k != index :: written[k] == read.result.value[k];
    }
  }

  /** The page read is the first APDU sent, and a failed read ends the operation there. */
  lemma ReplaceConfigByteReadsFirst(s: Script, index: nat, value: bv8)
    ensures var io := ReplaceConfigByteIo(s, index, value);
      var read := ReadConfigBlockIo(s, ConfigPage, 1);
      && read == ExchangeIo(s, VendorRead(CmdReadConfig, ConfigPage, 0))
      && io.sent[0] == ExchangeApdu(VendorRead(CmdReadConfig, ConfigPage, 0))
      && (read.result.Failure? ==> |io.sent| == 1 && io.result.Failure?)
  {
    var io := ReplaceConfigByteIo(s, index, value);
    var read := ReadConfigBlockIo(s, ConfigPage, 1);
    ReadConfigPageIsExchange(s);
    assert read.sent == [ExchangeApdu(VendorRead(CmdReadConfig, ConfigPage, 0))];
    assert io.sent[..1] == read.sent;
  }

  /** A replacement that succeeded wrote back the page it read, with byte `index` replaced. */
  lemma ReplaceConfigByteWritten(s: Script, index: nat, value: bv8)
    requires ReplaceConfigByteIo(s, index, value).result.Success?
    ensures var read := ReadConfigBlockIo(s, ConfigPage, 1);
      && read.result.Success? && |read.result.value| == 4 && index < 4
      && ReplaceConfigByteIo(s, index, value).sent ==
           read.sent + [ExchangeApdu(WriteConfigBlockFrame(ConfigPage, read.result.value[index := value]))]
  {
    var read := ReadConfigBlockIo(s, ConfigPage, 1);
    var written := read.result.value[index := value];
    assert ReplaceConfigByteIo(s, index, value) == After(read.sent, WriteConfigBlockIo(read.rest, ConfigPage, written));
  }

  /** Reading the configuration page is one exchange of the one-block read frame. */
  lemma ReadConfigPageIsExchange(s: Script)
    ensures ReadConfigBlockIo(s, ConfigPage, 1) == ExchangeIo(s, VendorRead(CmdReadConfig, ConfigPage, 0))
  {
    assert ToByte(1 - 1) == 0;
  }

  function WriteConfig0Io(s: Script, autoStandby: bool, lockSession: bool, ehMode: bv8, sramCopy: bool): Io<()> {
    ReplaceConfigByteIo(s, 0, Config0Byte(autoStandby, lockSession, ehMode, sramCopy))
  }

  function WriteConfig1Io(s: Script, transferDirInverse: bool, sramEnable: bool, arbiterMode: bv8, useCase: bv8,
                          arbiterModeEnable: bool): Io<()> {
    ReplaceConfigByteIo(s, 1, Config1Byte(transferDirInverse, sramEnable, arbiterMode, useCase, arbiterModeEnable))
  }

  /** `write_config2` as written: reads the page, then fails on the unbound name `gpio0_pad_in`. */
  function WriteConfig2AsWrittenIo(s: Script): (io: Io<()>)
    ensures io.result.Failure?
    ensures io.sent == [ExchangeApdu(VendorRead(CmdReadConfig, ConfigPage, 0))]
  {
    var read := ReadConfigBlockIo(s, ConfigPage, 1);
    if read.result.Failure? then Fail(read)
    else Io(Failure(UndefinedName("gpio0_pad_in")), read.sent, read.rest)
  }

  /** `write_config2` composing byte 2 from its own `gpio0_in` and `gpio1_in` parameters. */
  function WriteConfig2Io(s: Script, gpio0SlewFast: bool, gpio1SlewFast: bool, lockBlockSupported: bool,
                          extendedCommandsSupported: bool, gpio0In: bv8, gpio1In: bv8): Io<()> {
    ReplaceConfigByteIo(s, 2, Config2Byte(gpio0SlewFast, gpio1SlewFast, lockBlockSupported,
                                          extendedCommandsSupported, gpio0In, gpio1In))
  }

  /** As written, `write_config2` never writes the page, even when the tag answers the read. */
  lemma WriteConfig2AsWrittenNeverWrites(s: Script, gpio0SlewFast: bool, gpio1SlewFast: bool,
                                         lockBlockSupported: bool, extendedCommandsSupported: bool)
    requires ReadConfigBlockIo(s, ConfigPage, 1).result == Success([0x00, 0x00, 0x00, 0x00])
    ensures WriteConfig2AsWrittenIo(s).result == Failure(UndefinedName("gpio0_pad_in"))
    ensures |WriteConfig2AsWrittenIo(s).sent| == 1
    ensures |WriteConfig2Io(s, gpio0SlewFast, gpio1SlewFast, lockBlockSupported, extendedCommandsSupported,
                            0x30, 0xC0).sent| == 2
  {
  }

  // ---------------------------------------------------------------------------------------
  // Specifications of the NXP queries

  function GetNxpInfoIo(s: Script): (io: Io<NxpInfo>)
    ensures io.sent == [ExchangeApdu(NxpInfoFrame())]
    ensures io.result.Success? ==>
              ExchangeIo(s, NxpInfoFrame()).result.Success?
              && io.result == NxpInfoOf(ExchangeIo(s, NxpInfoFrame()).result.value)
  {
    var e := ExchangeIo(s, NxpInfoFrame());
    if e.result.Failure? then Fail(e) else Io(NxpInfoOf(e.result.value), e.sent, e.rest)
  }

  function GetConfigInfoIo(s: Script): (io: Io<ConfigInfo>)
    ensures io.sent == [ExchangeApdu(VendorRead(CmdReadConfig, ConfigPage, 0))]
    ensures io.result.Success? ==>
              ReadConfigBlockIo(s, ConfigPage, 1).result.Success?
              && io.result == ConfigInfoOf(ReadConfigBlockIo(s, ConfigPage, 1).result.value)
  {
    var read := ReadConfigBlockIo(s, ConfigPage, 1);
    if read.result.Failure? then Fail(read) else Io(ConfigInfoOf(read.result.value), read.sent, read.rest)
  }

  function GetEhEdConfigInfoIo(s: Script): (io: Io<EhEdConfig>)
    ensures io.sent == [ExchangeApdu(VendorRead(CmdReadConfig, EhConfigPage, 0))]
    ensures io.result.Success? ==>
              ReadConfigBlockIo(s, EhConfigPage, 1).result.Success?
              && io.result == EhEdConfigOf(ReadConfigBlockIo(s, EhConfigPage, 1).result.value)
  {
    var read := ReadConfigBlockIo(s, EhConfigPage, 1);
    if read.result.Failure? then Fail(read) else Io(EhEdConfigOf(read.result.value), read.sent, read.rest)
  }

  // ---------------------------------------------------------------------------------------
  // The vendor command object

  class Ntag5Link {
    const reader: Acr1552

    constructor (reader: Acr1552)
      ensures this.reader == reader
    {
      this.reader := reader;
    }

    method GetNxpInfo() returns (r: Result<NxpInfo>)
      modifies reader
      ensures reader.Performed(GetNxpInfoIo(old(reader.script)), r)
    {
      var data := reader.TransmitIso15693(NxpInfoFrame());
      if data.Failure? {
        return Failure(data.error);
      }
      r := NxpInfoOf(data.value);
    }

    method ReadConfigBlock(address: bv8, numBlocks: int) returns (r: Result<seq<bv8>>)
      modifies reader
      ensures reader.Performed(ReadConfigBlockIo(old(reader.script), address, numBlocks), r)
    {
      if numBlocks < 1 {
        return Failure(NoBlockRequested);
      }
      if numBlocks > 256 {
        return Failure(ByteOutOfRange);
      }
      r := reader.TransmitIso15693(VendorRead(CmdReadConfig, address, ToByte(numBlocks - 1)));
    }

    method GetConfigInfo() returns (r: Result<ConfigInfo>)
      modifies reader
      ensures reader.Performed(GetConfigInfoIo(old(reader.script)), r)
    {
      var config := ReadConfigBlock(ConfigPage, 1);
      if config.Failure? {
        return Failure(config.error);
      }
      r := ConfigInfoOf(config.value);
    }

    method GetEhEdConfigInfo() returns (r: Result<EhEdConfig>)
      modifies reader
      ensures reader.Performed(GetEhEdConfigInfoIo(old(reader.script)), r)
    {
      var config := ReadConfigBlock(EhConfigPage, 1);
      if config.Failure? {
        return Failure(config.error);
      }
      r := EhEdConfigOf(config.value);
    }

    method WriteConfigBlock(address: bv8, block: seq<bv8>) returns (r: Result<()>)
      modifies reader
      ensures reader.Performed(WriteConfigBlockIo(old(reader.script), address, block), r)
    {
      if |block| != 4 {
        return Failure(BlockNotFourBytes);
      }
      var answer := reader.TransmitIso15693(WriteConfigBlockFrame(address, block));
      if answer.Failure? {
        return Failure(answer.error);
      }
      r := Success(());
    }

    /** The read-modify-write shared by the three configuration-byte writers. */
    method ReplaceConfigByte(index: nat, value: bv8) returns (r: Result<()>)
      modifies reader
      ensures reader.Performed(ReplaceConfigByteIo(old(reader.script), index, value), r)
    {
      var config := ReadConfigBlock(ConfigPage, 1);
      if config.Failure? {
        return Failure(config.error);
      }
      var page := config.value;
      if index >= |page| {
        return Failure(IndexOutOfRange);
      }
      page := page[index := value];
      r := WriteConfigBlock(ConfigPage, page);
    }

    method WriteConfig0(autoStandby: bool, lockSession: bool, ehMode: bv8, sramCopy: bool) returns (r: Result<()>)
      modifies reader
      ensures reader.Performed(WriteConfig0Io(old(reader.script), autoStandby, lockSession, ehMode, sramCopy), r)
    {
      r := ReplaceConfigByte(0, Config0Byte(autoStandby, lockSession, ehMode, sramCopy));
    }

    method WriteConfig1(transferDirInverse: bool, sramEnable: bool, arbiterMode: bv8, useCase: bv8,
                        arbiterModeEnable: bool) returns (r: Result<()>)
      modifies reader
      ensures reader.Performed(WriteConfig1Io(old(reader.script), transferDirInverse, sramEnable, arbiterMode,
                                              useCase, arbiterModeEnable), r)
    {
      r := ReplaceConfigByte(1, Config1Byte(transferDirInverse, sramEnable, arbiterMode, useCase, arbiterModeEnable));
    }

    /** `write_config2` as the source has it: the page is read, then the unbound name is hit. */
    method WriteConfig2AsWritten(gpio0SlewFast: bool, gpio1SlewFast: bool, lockBlockSupported: bool,
                                 extendedCommandsSupported: bool, gpio0In: bv8, gpio1In: bv8)
      returns (r: Result<()>)
      modifies reader
      ensures reader.Performed(WriteConfig2AsWrittenIo(old(reader.script)), r)
    {
      var config := ReadConfigBlock(ConfigPage, 1);
      if config.Failure? {
        return Failure(config.error);
      }
      r := Failure(UndefinedName("gpio0_pad_in"));
    }

    method WriteConfig2(gpio0SlewFast: bool, gpio1SlewFast: bool, lockBlockSupported: bool,
                        extendedCommandsSupported: bool, gpio0In: bv8, gpio1In: bv8) returns (r: Result<()>)
      modifies reader
      ensures reader.Performed(WriteConfig2Io(old(reader.script), gpio0SlewFast, gpio1SlewFast, lockBlockSupported,
                                              extendedCommandsSupported, gpio0In, gpio1In), r)
    {
      r := ReplaceConfigByte(2, Config2Byte(gpio0SlewFast, gpio1SlewFast, lockBlockSupported,
                                            extendedCommandsSupported, gpio0In, gpio1In));
    }

    method WriteEhEdConfig(enable: bool, disablePowerCheck: bool, current: bv8, voltage: bv8, edConfig: bv8)
      returns (r: Result<()>)
      modifies reader
      ensures reader.Performed(WriteEhEdConfigIo(old(reader.script), enable, disablePowerCheck, current, voltage,
                                                 edConfig), r)
    {
      r := WriteConfigBlock(EhConfigPage, EhEdConfigBlock(enable, disablePowerCheck, current, voltage, edConfig));
    }

    method ReadSram(address: bv8, numBlocks: int) returns (r: Result<seq<bv8>>)
      modifies reader
      ensures reader.Performed(ReadSramIo(old(reader.script), address, numBlocks), r)
    {
      if numBlocks < 1 {
        return Failure(NoBlockRequested);
      }
      if numBlocks > 256 {
        return Failure(ByteOutOfRange);
      }
      r := reader.TransmitIso15693(VendorRead(CmdReadSram, address, ToByte(numBlocks - 1)));
    }

    method ReadI2c(slave: int, numBytes: int, stop: bool) returns (r: Result<seq<bv8>>)
      modifies reader
      ensures reader.Performed(ReadI2cIo(old(reader.script), slave, numBytes, stop), r)
    {
      if numBytes < 1 {
        return Failure(NoByteRequested);
      }
      if numBytes > 256 {
        return Failure(ByteOutOfRange);
      }
      var parameter := SlaveParameter(slave, stop);
      r := reader.TransmitIso15693(VendorRead(CmdReadI2c, parameter, ToByte(numBytes - 1)));
    }

    method WriteI2c(slave: int, data: seq<bv8>, stop: bool) returns (r: Result<seq<bv8>>)
      modifies reader
      ensures reader.Performed(WriteI2cIo(old(reader.script), slave, data, stop), r)
    {
      if |data| < 1 {
        return Failure(NoByteToWrite);
      }
      if |data| > 256 {
        return Failure(ByteOutOfRange);
      }
      var parameter := SlaveParameter(slave, stop);
      r := reader.TransmitIso15693(WriteI2cFrame(parameter, data));
    }

    method CheckI2cWriteResult() returns (r: Result<bool>)
      modifies reader
      ensures reader.Performed(CheckI2cWriteResultIo(old(reader.script)), r)
    {
      var page := ReadConfigBlock(I2cMasterStatusRegister, 1);
      if page.Failure? {
        return Failure(page.error);
      }
      if |page.value| == 0 {
        return Failure(IndexOutOfRange);
      }
      r := WriteResultOf(page.value[0]);
    }

    method CheckI2cBusy() returns (r: Result<bool>)
      modifies reader
      ensures reader.Performed(CheckI2cBusyIo(old(reader.script)), r)
    {
      var page := ReadConfigBlock(I2cMasterStatusRegister, 1);
      if page.Failure? {
        return Failure(page.error);
      }
      if |page.value| == 0 {
        return Failure(IndexOutOfRange);
      }
      r := Success(page.value[0] & I2cBusy != 0);
    }

    method EhControl(trigger: bool, enable: bool) returns (r: Result<()>)
      modifies reader
      ensures reader.Performed(EhControlIo(old(reader.script), trigger, enable), r)
    {
      var flags: bv8 := 0x00;
      if trigger {
        flags := flags | EhTrigger;
      }
      if enable {
        flags := flags | EhEnable;
      }
      r := WriteConfigBlock(EhConfigRegister, [flags, 0x00, 0x00, 0x00]);
    }

    method CheckEhLoadOk() returns (r: Result<bool>)
      modifies reader
      ensures reader.Performed(CheckEhLoadOkIo(old(reader.script)), r)
    {
      var page := ReadConfigBlock(EhConfigRegister, 1);
      if page.Failure? {
        return Failure(page.error);
      }
      if |page.value| == 0 {
        return Failure(IndexOutOfRange);
      }
      r := Success(page.value[0] & EhLoadOk == EhLoadOk);
    }
  }
}

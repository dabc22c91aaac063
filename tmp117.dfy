/**
 * The TMP117 precision temperature sensor: the configuration register decoder with its
 * conversion-cycle table, the EEPROM and device-id registers, configuration writes (with
 * the EEPROM persistence sequence) and the gated temperature read.
 *
 * The driver carries its own copies of the register tunnel.  Its `read_register` reads two
 * bytes and fetches the default single SRAM page; `ReadRegisterIsTunnelRead` shows that
 * this is the general tunnel read with length 2.  Its `write_register` and
 * `general_reset` are the tunnel ones line for line and are used from `I2cBase` directly.
 */
module Tmp117 {
  import opened Errors
  import opened Bytes
  import opened Reader
  import Ntag5Link
  import I2cBase

  // Register addresses
  const RegTempResult: int := 0x00
  const RegConfig: int := 0x01
  const RegThighLimit: int := 0x02
  const RegTlowLimit: int := 0x03
  const RegEepromUnlock: int := 0x04
  const RegEeprom1: int := 0x05
  const RegEeprom2: int := 0x06
  const RegTempOffset: int := 0x07
  const RegEeprom3: int := 0x08
  const RegDeviceId: int := 0x0F

  // Configuration register bits
  const SoftReset: bv16 := 0x0002
  const AlertSelect: bv16 := 0x0004
  const AlertPolarity: bv16 := 0x0008
  const ThermMode: bv16 := 0x0010
  const AveragingMask: bv16 := 0x0060
  const CycleMask: bv16 := 0x0380
  const ModeMask: bv16 := 0x0C00
  const EepromBusy: bv16 := 0x1000
  const DataReady: bv16 := 0x2000
  const LowAlert: bv16 := 0x4000
  const HighAlert: bv16 := 0x8000

  // Field values
  const ModeContinuous: bv16 := 0x0000
  const ModeShutdown: bv16 := 0x0400
  const ModeContinuous2: bv16 := 0x0800
  const ModeOneShot: bv16 := 0x0C00
  const AverageNone: bv16 := 0x0000
  const Average8: bv16 := 0x0020
  const Average32: bv16 := 0x0040
  const Average64: bv16 := 0x0060

  // Device id and EEPROM unlock register
  const DeviceIdMask: bv16 := 0x0FFF
  const RevisionMask: bv16 := 0xF000
  const EepromUnlockEnable: bv16 := 0x8000
  const EepromUnlockBusy: bv16 := 0x4000

  // Temperatures

  /** `raw_to_celsius`: the signed big-endian register value times 7.8125 m°C. */
  function RawToCelsius(data: seq<bv8>): (t: real)
    requires |data| <= 2
    ensures t * 128.0 == SignedWord(data) as real
  {
    (SignedWord(data) as real * 7.8125) / 1000.0
  }

  /** One unit of the temperature register is exactly 1/128 °C, so a reading lies in [-256, 256). */
  lemma RawToCelsiusResolution(data: seq<bv8>)
    requires |data| == 2
    ensures RawToCelsius(data) * 128.0 == SignedWord(data) as real
    ensures -256.0 <= RawToCelsius(data) < 256.0
  {
  }

  // The configuration register

  datatype Mode = Continuous | Shutdown | OneShot
  datatype Averaging = NoAveraging | Averaging8 | Averaging32 | Averaging64

  datatype ConfigInfo = ConfigInfo(
    highAlert: bool, lowAlert: bool, dataReady: bool, eepromBusy: bool,
    mode: Mode, averaging: Averaging, conversionCycleMs: real,
    thermMode: bool, alertPolarityHigh: bool, alertSelectDataReady: bool,
    softReset: bool)

  /** The two-bit mode field: both continuous codes read as continuous. */
  function ModeOf(config: bv16): (m: Mode)
    ensures m == Shutdown <==> config & ModeMask == ModeShutdown
    ensures m == OneShot <==> config & ModeMask == ModeOneShot
  {
    var bits := config & ModeMask;
    if bits == ModeContinuous || bits == ModeContinuous2 then Continuous
    else if bits == ModeShutdown then Shutdown
    else OneShot
  }

  function AveragingOf(config: bv16): (a: Averaging)
    ensures a == NoAveraging <==> config & AveragingMask == AverageNone
    ensures a == Averaging8 <==> config & AveragingMask == Average8
    ensures a == Averaging32 <==> config & AveragingMask == Average32
    ensures a == Averaging64 <==> config & AveragingMask == Average64
  {
    var bits := config & AveragingMask;
    if bits == AverageNone then NoAveraging
    else if bits == Average8 then Averaging8
    else if bits == Average32 then Averaging32
    else Averaging64
  }

  /** The three-bit conversion-cycle code. */
  function CycleCode(config: bv16): (c: int)
    ensures 0 <= c < 8
  {
    ((config & CycleMask) >> 7) as int
  }

  /**
   * The conversion cycle in milliseconds as the sparse table gives it: codes 0..3 have
   * entries for averaging none/8/32, codes 5..7 have fixed entries, and everything else
   * is the one-second default.
   */
  function ConversionCycleMs(code: int, averaging: Averaging): (ms: real)
    requires 0 <= code < 8
    ensures ms >= NominalCycleMs(code)
  {
    if code == 0 then
      (match averaging
       case NoAveraging => 15.5
       case Averaging8 => 125.0
       case Averaging32 => 500.0
       case Averaging64 => 1000.0)
    else if code == 1 then
      (match averaging
       case NoAveraging => 125.0
       case Averaging8 => 125.0
       case Averaging32 => 500.0
       case Averaging64 => 1000.0)
    else if code == 2 then
      (match averaging
       case NoAveraging => 250.0
       case Averaging8 => 250.0
       case Averaging32 => 500.0
       case Averaging64 => 1000.0)
    else if code == 3 then
      (match averaging
       case NoAveraging => 500.0
       case Averaging8 => 500.0
       case Averaging32 => 500.0
       case Averaging64 => 1000.0)
    else if code == 5 then 4000.0
    else if code == 6 then 8000.0
    else if code == 7 then 16000.0
    else 1000.0
  }

  /** The nominal cycle of each code when no averaging is done. */
  function NominalCycleMs(code: int): real
    requires 0 <= code < 8
  {
    [15.5, 125.0, 250.0, 500.0, 1000.0, 4000.0, 8000.0, 16000.0][code]
  }

  /** How long one averaged conversion takes. */
  function AveragingTimeMs(averaging: Averaging): real {
    match averaging
    case NoAveraging => 15.5
    case Averaging8 => 125.0
    case Averaging32 => 500.0
    case Averaging64 => 1000.0
  }

  /**
   * The sparse table is exactly "the nominal cycle, stretched to the averaging time when
   * averaging takes longer".
   */
  lemma ConversionCycleIsMax(code: int, averaging: Averaging)
    requires 0 <= code < 8
    ensures ConversionCycleMs(code, averaging) ==
            if NominalCycleMs(code) >= AveragingTimeMs(averaging) then NominalCycleMs(code) else AveragingTimeMs(averaging)
  {
  }

  /** `get_config_info` after the read: flags, mode, averaging and conversion cycle. */
  function ConfigInfoOf(data: seq<bv8>): (info: ConfigInfo)
    requires |data| <= 2
    ensures info.dataReady <==> Word(data) & DataReady != 0
    ensures info.mode == ModeOf(Word(data)) && info.averaging == AveragingOf(Word(data))
    ensures info.conversionCycleMs == ConversionCycleMs(CycleCode(Word(data)), info.averaging)
  {
    var config := Word(data);
    ConfigInfo(
      config & HighAlert != 0, config & LowAlert != 0, config & DataReady != 0, config & EepromBusy != 0,
      ModeOf(config), AveragingOf(config), ConversionCycleMs(CycleCode(config), AveragingOf(config)),
      config & ThermMode != 0, config & AlertPolarity != 0, config & AlertSelect != 0,
      config & SoftReset != 0)
  }

  // The device id register

  datatype DeviceId = DeviceId(id: bv16, revision: bv16)

  function DeviceIdOf(data: seq<bv8>): DeviceId
    requires |data| <= 2
  {
    var word := Word(data);
    DeviceId(word & DeviceIdMask, (word & RevisionMask) >> 12)
  }

  /** The id is the low twelve bits, the revision the top four, and together they are the word. */
  lemma DeviceIdSplit(data: seq<bv8>)
    requires |data| <= 2
    ensures var d := DeviceIdOf(data);
            d.id < 0x1000 && d.revision < 0x10 && (d.revision << 12) | d.id == Word(data)
  {
  }

  datatype EepromInfo = EepromInfo(
    thighLimit: real, tlowLimit: real,
    eeprom1: seq<bv8>, eeprom2: seq<bv8>, eeprom3: seq<bv8>,
    temperatureOffset: real, deviceId: DeviceId)

  /** The registers `get_eeprom_info` reads, in the order it reads them. */
  const EepromInfoRegisters: seq<int> :=
    [RegThighLimit, RegTlowLimit, RegEeprom1, RegEeprom2, RegEeprom3, RegTempOffset, RegDeviceId]

  function EepromInfoOf(values: seq<seq<bv8>>): (info: EepromInfo)
    requires |values| == 7 && forall i | 0 <= i < 7 :: |values[i]| <= 2
    ensures info.deviceId == DeviceIdOf(values[6])
    ensures info.eeprom1 == values[2] && info.eeprom2 == values[3] && info.eeprom3 == values[4]
  {
    EepromInfo(RawToCelsius(values[0]), RawToCelsius(values[1]), values[2], values[3], values[4],
               RawToCelsius(values[5]), DeviceIdOf(values[6]))
  }

  // Configuration changes

  /** `(cycle << 7) & CONV_MASK` for any Python integer `cycle`. */
  function CycleBits(cycle: int): (b: bv16)
    ensures b & !CycleMask == 0 && ((b & CycleMask) >> 7) as int == cycle % 8
  {
    var code := (cycle % 8) as bv16;
    assert code < 8;
    code << 7
  }

  /** A supplied Python integer as a register word; outside 0..0xFFFF `to_bytes(2)` cannot encode the result. */
  function FieldOf(v: Option<int>): (r: Result<Field>)
    ensures r.Success? <==> (v.Some? ==> 0 <= v.value < 0x10000)
    ensures r.Failure? ==> r.error == IntTooBig
    ensures r.Success? ==> (r.value.Put? <==> v.Some?)
  {
    match v
    case None => Success(Keep)
    case Some(x) => if 0 <= x < 0x10000 then Success(Put(x as bv16)) else Failure(IntTooBig)
  }

  /** The bits no field of `write_config` touches. */
  const OtherBits: bv16 := !(ModeMask | CycleMask | AveragingMask)

  /** A field update with a value inside its mask sets that field and keeps everything else. */
  lemma SetFieldKeeps(config: bv16, mask: bv16, value: bv16)
    requires mask == ModeMask || mask == CycleMask || mask == AveragingMask
    requires value & !mask == 0
    ensures var r := SetField(config, mask, value);
            && r & mask == value
            && (mask != ModeMask ==> r & ModeMask == config & ModeMask)
            && (mask != CycleMask ==> r & CycleMask == config & CycleMask)
            && (mask != AveragingMask ==> r & AveragingMask == config & AveragingMask)
            && r & OtherBits == config & OtherBits
  {
  }

  /** A field value that lies inside its mask. */
  predicate Fits(field: Field, mask: bv16) {
    field.Put? ==> field.bits & !mask == 0
  }

  /** The field's bits after an update: the new value, or what the register held. */
  function FieldAfter(config: bv16, mask: bv16, field: Field): bv16 {
    if field.Put? then field.bits else config & mask
  }

  /** One update sets its own field (or keeps it) and keeps the other fields and bits. */
  lemma FieldStepKeeps(config: bv16, mask: bv16, field: Field)
    requires mask == ModeMask || mask == CycleMask || mask == AveragingMask
    requires Fits(field, mask)
    ensures var r := FieldStep(config, mask, field);
            && r & mask == FieldAfter(config, mask, field)
            && (mask != ModeMask ==> r & ModeMask == config & ModeMask)
            && (mask != CycleMask ==> r & CycleMask == config & CycleMask)
            && (mask != AveragingMask ==> r & AveragingMask == config & AveragingMask)
            && r & OtherBits == config & OtherBits
  {
    if field.Put? {
      SetFieldKeeps(config, mask, field.bits);
    }
  }

  /** The three updates of `write_config` in its order: mode, cycle, averaging. */
  function ApplyFields(config: bv16, mode: Field, cycle: Field, averaging: Field): bv16 {
    FieldStep(FieldStep(FieldStep(config, ModeMask, mode), CycleMask, cycle), AveragingMask, averaging)
  }

  /** Each supplied field ends up holding its value, each absent one and every other bit is kept. */
  lemma ApplyFieldsKeeps(config: bv16, mode: Field, cycle: Field, averaging: Field)
    requires Fits(mode, ModeMask) && Fits(cycle, CycleMask) && Fits(averaging, AveragingMask)
    ensures var r := ApplyFields(config, mode, cycle, averaging);
            && r & ModeMask == FieldAfter(config, ModeMask, mode)
            && r & CycleMask == FieldAfter(config, CycleMask, cycle)
            && r & AveragingMask == FieldAfter(config, AveragingMask, averaging)
            && r & OtherBits == config & OtherBits
  {
    var c1 := FieldStep(config, ModeMask, mode);
    var c2 := FieldStep(c1, CycleMask, cycle);
    FieldStepKeeps(config, ModeMask, mode);
    FieldStepKeeps(c1, CycleMask, cycle);
    FieldStepKeeps(c2, AveragingMask, averaging);
  }

  /** `(cycle << 7) & CONV_MASK`, when a cycle is supplied. */
  function CycleField(cycle: Option<int>): (r: Field)
    ensures r.Put? <==> cycle.Some?
    ensures r.Put? ==> r.bits & !CycleMask == 0 && ((r.bits & CycleMask) >> 7) as int == cycle.value % 8
  {
    if cycle.Some? then Put(CycleBits(cycle.value)) else Keep
  }

  /**
   * The `&=` / `|=` updates of `write_config` on the register value read back as an integer.
   * A mode or averaging value outside 0..0xFFFF makes the result unencodable as two bytes.
   */
  function ApplyConfig(config: bv16, mode: Option<int>, cycle: Option<int>, averaging: Option<int>): (r: Result<bv16>)
    ensures r.Success? <==>
              (mode.Some? ==> 0 <= mode.value < 0x10000) && (averaging.Some? ==> 0 <= averaging.value < 0x10000)
    ensures r.Failure? ==> r.error == IntTooBig
  {
    var m :- FieldOf(mode);
    var v :- FieldOf(averaging);
    Success(ApplyFields(config, m, CycleField(cycle), v))
  }

  /**
   * The driver's in-place updates, in its order: mode, cycle, averaging. The range checks
   * stand where `to_bytes` raises on an out-of-range mode or averaging value.
   */
  method UpdateConfig(current: bv16, mode: Option<int>, cycle: Option<int>, averaging: Option<int>)
    returns (r: Result<bv16>)
    ensures r == ApplyConfig(current, mode, cycle, averaging)
  {
    var m := FieldOf(mode);
    var v := FieldOf(averaging);
    if m.Failure? || v.Failure? {
      return Failure(IntTooBig);
    }
    var config := UpdateField(current, ModeMask, m.value);
    config := UpdateField(config, CycleMask, CycleField(cycle));
    config := UpdateField(config, AveragingMask, v.value);
    r := Success(config);
  }

  /** A supplied field value that lies inside the field's mask (absent counts as inside). */
  predicate FitsMask(value: Option<int>, mask: bv16) {
    value.Some? ==> 0 <= value.value < 0x10000 && value.value as bv16 & !mask == 0
  }

  /** A field's bits after `write_config`: the supplied value, or what the register held. */
  function SuppliedOr(value: Option<int>, config: bv16, mask: bv16): bv16
    requires FitsMask(value, mask)
  {
    if value.Some? then value.value as bv16 else config & mask
  }

  /**
   * With mode and averaging values inside their masks, `write_config` succeeds, sets exactly the
   * supplied fields (the cycle modulo 8) and keeps every other bit of the register.
   */
  lemma ApplyConfigTouchesOnlySuppliedFields(config: bv16, mode: Option<int>, cycle: Option<int>, averaging: Option<int>)
    requires FitsMask(mode, ModeMask) && FitsMask(averaging, AveragingMask)
    ensures ApplyConfig(config, mode, cycle, averaging).Success?
    ensures var r := ApplyConfig(config, mode, cycle, averaging).value;
            && r & ModeMask == SuppliedOr(mode, config, ModeMask)
            && CycleCode(r) == (if cycle.Some? then cycle.value % 8 else CycleCode(config))
            && r & AveragingMask == SuppliedOr(averaging, config, AveragingMask)
            && r & OtherBits == config & OtherBits
  {
    var m, y, v := FieldOf(mode).value, CycleField(cycle), FieldOf(averaging).value;
    var r := ApplyFields(config, m, y, v);
    assert ApplyConfig(config, mode, cycle, averaging) == Success(r);
    ApplyFieldsKeeps(config, m, y, v);
    SuppliedFieldAfter(config, ModeMask, mode);
    SuppliedFieldAfter(config, AveragingMask, averaging);
    CycleAfter(config, r, cycle);
  }

  /** A mode or averaging field after the update: the supplied value, or the old bits. */
  lemma SuppliedFieldAfter(config: bv16, mask: bv16, value: Option<int>)
    requires FitsMask(value, mask)
    ensures FieldOf(value).Success?
    ensures FieldAfter(config, mask, FieldOf(value).value) == SuppliedOr(value, config, mask)
  {
  }

  /** The cycle field after the update: the supplied cycle modulo 8, or the old code. */
  lemma CycleAfter(config: bv16, r: bv16, cycle: Option<int>)
    requires r & CycleMask == FieldAfter(config, CycleMask, CycleField(cycle))
    ensures CycleCode(r) == (if cycle.Some? then cycle.value % 8 else CycleCode(config))
  {
  }

  // The register reads and the operations on them

  /** `read_i2c(address, 2)` then `read_sram()` (one page), keeping the first two bytes. */
  function ReadWordBackIo(s: Script, slave: int): (io: Io<seq<bv8>>)
    ensures |io.rest| <= |s|
    ensures io.result.Success? ==> |io.rest| < |s| && |io.result.value| <= 2
  {
    var read := Ntag5Link.ReadI2cIo(s, slave, 2, true);
    if read.result.Failure? then Fail(read)
    else
      var sram := Ntag5Link.ReadSramIo(read.rest, 0x00, 1);
      if sram.result.Failure? then After(read.sent, Fail(sram))
      else Io(Success(Slice(sram.result.value, 0, 2)), read.sent + sram.sent, sram.rest)
  }

  /** Two bytes fit in the one page `read_sram()` fetches by default. */
  lemma ReadWordBackIsReadBack(s: Script, slave: int)
    ensures ReadWordBackIo(s, slave) == I2cBase.ReadBackIo(s, slave, 2)
  {
    assert I2cBase.Pages(2) == 1;
  }

  /**
   * TMP117's own `read_register`: poll, write `[register]`, check the acknowledgment, then
   * read the two-byte word back.
   */
  function ReadRegisterIo(s: Script, slave: int, register: int): (io: Io<seq<bv8>>)
    ensures |io.rest| <= |s|
    ensures io.result.Success? ==> |io.rest| < |s| && |io.result.value| <= 2
  {
    var idle := I2cBase.PollIdleIo(s);
    if idle.result.Failure? then Fail(idle)
    else
      var reg := ByteOf(register);
      if reg.Failure? then Io(Failure(reg.error), idle.sent, idle.rest)
      else
        var ack := I2cBase.WriteAckIo(idle.rest, slave, [reg.value]);
        if ack.result.Failure? then After(idle.sent, Fail(ack))
        else After(idle.sent + ack.sent, ReadWordBackIo(ack.rest, slave))
  }

  /** The driver's own register read is the tunnel read of two bytes. */
  lemma ReadRegisterIsTunnelRead(s: Script, slave: int, register: int)
    ensures ReadRegisterIo(s, slave, register) == I2cBase.ReadRegisterIo(s, slave, register, 2)
  {
    var idle := I2cBase.PollIdleIo(s);
    if idle.result.Success? && ByteOf(register).Success? {
      ReadWordBackIsReadBack(I2cBase.WriteAckIo(idle.rest, slave, [ByteOf(register).value]).rest, slave);
    }
  }

  /** `get_config_info`: one register read, then the decoder. */
  function GetConfigInfoIo(s: Script, slave: int): (io: Io<ConfigInfo>)
    ensures io.result.Success? ==>
              var read := ReadRegisterIo(s, slave, RegConfig);
              read.result.Success? && io.result.value == ConfigInfoOf(read.result.value)
  {
    var read := ReadRegisterIo(s, slave, RegConfig);
    if read.result.Failure? then Fail(read)
    else Io(Success(ConfigInfoOf(read.result.value)), read.sent, read.rest)
  }

  /** Register reads one after the other, stopping at the first failure. */
  function ReadRegistersIo(s: Script, slave: int, registers: seq<int>): (io: Io<seq<seq<bv8>>>)
    ensures |io.rest| <= |s|
    ensures io.result.Success? ==>
              |io.result.value| == |registers| && forall i | 0 <= i < |registers| :: |io.result.value[i]| <= 2
    decreases |registers|
  {
    if registers == [] then Io(Success([]), [], s)
    else
      var first := ReadRegisterIo(s, slave, registers[0]);
      if first.result.Failure? then Fail(first)
      else
        var others := ReadRegistersIo(first.rest, slave, registers[1..]);
        if others.result.Failure? then After(first.sent, Fail(others))
        else Io(Success([first.result.value] + others.result.value), first.sent + others.sent, others.rest)
  }

  /** `get_eeprom_info`: the seven reads in order, then the decoder. */
  function GetEepromInfoIo(s: Script, slave: int): (io: Io<EepromInfo>)
    ensures io.result.Success? ==>
              var values := ReadRegistersIo(s, slave, EepromInfoRegisters);
              values.result.Success? && io.result.value == EepromInfoOf(values.result.value)
  {
    var values := ReadRegistersIo(s, slave, EepromInfoRegisters);
    if values.result.Failure? then Fail(values)
    else Io(Success(EepromInfoOf(values.result.value)), values.sent, values.rest)
  }

  /** `read_temperature`: the result register is read only when data is ready. */
  function ReadTemperatureIo(s: Script, slave: int): (io: Io<Option<real>>)
    ensures io.result.Success? ==>
              var config := ReadRegisterIo(s, slave, RegConfig);
              && config.result.Success?
              && (io.result.value.None? <==> Word(config.result.value) & DataReady == 0)
  {
    var read := ReadRegisterIo(s, slave, RegConfig);
    if read.result.Failure? then Fail(read)
    else if Word(read.result.value) & DataReady == 0 then Io(Success(None), read.sent, read.rest)
    else
      var temp := ReadRegisterIo(read.rest, slave, RegTempResult);
      if temp.result.Failure? then After(read.sent, Fail(temp))
      else Io(Success(Some(RawToCelsius(temp.result.value))), read.sent + temp.sent, temp.rest)
  }

  /**
   * After a successful configuration read, `read_temperature` gives no value exactly when
   * the data-ready bit is clear, and then reads nothing more; otherwise its value is the
   * result register in degrees.
   */
  lemma ReadTemperatureGatedByDataReady(s: Script, slave: int)
    requires ReadRegisterIo(s, slave, RegConfig).result.Success?
    ensures var config := ReadRegisterIo(s, slave, RegConfig);
            var io := ReadTemperatureIo(s, slave);
            && (Word(config.result.value) & DataReady == 0 ==> io == Io(Success(None), config.sent, config.rest))
            && (Word(config.result.value) & DataReady != 0 ==>
                  var temp := ReadRegisterIo(config.rest, slave, RegTempResult);
                  && io.sent == config.sent + temp.sent
                  && (io.result.Success? <==> temp.result.Success?)
                  && (io.result.Success? ==> io.result.value == Some(RawToCelsius(temp.result.value))))
  {
  }

  // The EEPROM busy poll

  function EepromBusyOf(data: seq<bv8>): bool
    requires |data| <= 2
  {
    Word(data) & EepromUnlockBusy != 0
  }

  /** Read the unlock register until its busy bit is clear; each read consumes replies. */
  function EepromWaitIo(s: Script, slave: int): (io: Io<()>)
    ensures |io.rest| <= |s|
    decreases |s|
  {
    var read := ReadRegisterIo(s, slave, RegEepromUnlock);
    if read.result.Failure? then Fail(read)
    else if !EepromBusyOf(read.result.value) then Io(Success(()), read.sent, read.rest)
    else After(read.sent, EepromWaitIo(read.rest, slave))
  }

  /** What the EEPROM poll still does after one read answered `read` and left `rest`. */
  function EepromWaitFrom(read: Result<seq<bv8>>, rest: Script, slave: int): Io<()>
    requires read.Success? ==> |read.value| <= 2
  {
    if read.Failure? then Io(Failure(read.error), [], rest)
    else if !EepromBusyOf(read.value) then Io(Success(()), [], rest)
    else EepromWaitIo(rest, slave)
  }

  lemma EepromWaitUnfold(s: Script, slave: int)
    ensures var read := ReadRegisterIo(s, slave, RegEepromUnlock);
            EepromWaitIo(s, slave) == After(read.sent, EepromWaitFrom(read.result, read.rest, slave))
  {
  }

  /** A successful EEPROM poll ended on a read of the unlock register whose busy bit was clear. */
  lemma {:induction false} EepromWaitEndsIdle(s: Script, slave: int)
    requires EepromWaitIo(s, slave).result.Success?
    ensures exists t: Script | |t| <= |s| ::
              var read := ReadRegisterIo(t, slave, RegEepromUnlock);
              read.result.Success? && !EepromBusyOf(read.result.value) && read.rest == EepromWaitIo(s, slave).rest
    decreases |s|
  {
    var read := ReadRegisterIo(s, slave, RegEepromUnlock);
    if EepromBusyOf(read.result.value) {
      EepromWaitEndsIdle(read.rest, slave);
    } else {
      assert |s| <= |s| && read.rest == EepromWaitIo(s, slave).rest;
    }
  }

  // Writing the configuration

  /** The two big-endian bytes of a register value, as the Python list `write_register` takes. */
  function RegisterBytes(v: bv16): (r: seq<int>)
    ensures BytesOf(r) == Success(BigEndian16(v))
  {
    BytesOfValues(BigEndian16(v));
    Values(BigEndian16(v))
  }

  /**
   * The persistent tail: wait for the EEPROM, reset the chip by general call, re-read the
   * configuration and insist it is the value written.
   */
  function ConfirmIo(s: Script, slave: int, config: bv16): (io: Io<()>)
    ensures |io.rest| <= |s|
  {
    var wait := EepromWaitIo(s, slave);
    if wait.result.Failure? then Fail(wait)
    else
      var reset := I2cBase.GeneralResetIo(wait.rest);
      if reset.result.Failure? then After(wait.sent, Fail(reset))
      else
        var read := ReadRegisterIo(reset.rest, slave, RegConfig);
        if read.result.Failure? then After(wait.sent + reset.sent, Fail(read))
        else if Word(read.result.value) != config then Io(Failure(EepromNotConfirmed), wait.sent + reset.sent + read.sent, read.rest)
        else Io(Success(()), wait.sent + reset.sent + read.sent, read.rest)
  }

  /**
   * The confirmation succeeds exactly when the wait, the reset and the re-read succeed and
   * the re-read value is the one written; a different value is `EepromNotConfirmed`.
   */
  lemma ConfirmChecksReadBack(s: Script, slave: int, config: bv16)
    requires EepromWaitIo(s, slave).result.Success?
    requires I2cBase.GeneralResetIo(EepromWaitIo(s, slave).rest).result.Success?
    requires ReadRegisterIo(I2cBase.GeneralResetIo(EepromWaitIo(s, slave).rest).rest, slave, RegConfig).result.Success?
    ensures var back := ReadRegisterIo(I2cBase.GeneralResetIo(EepromWaitIo(s, slave).rest).rest, slave, RegConfig);
            && (ConfirmIo(s, slave, config).result.Success? <==> Word(back.result.value) == config)
            && (ConfirmIo(s, slave, config).result.Failure? ==> ConfirmIo(s, slave, config).result.error == EepromNotConfirmed)
  {
  }

  /**
   * `write_config`: read the configuration, apply the supplied fields, then either write it
   * (volatile) or unlock the EEPROM, write it and confirm it after a reset (persistent).
   */
  function WriteConfigIo(s: Script, slave: int, persistent: bool,
                         mode: Option<int>, cycle: Option<int>, averaging: Option<int>): (io: Io<()>)
    ensures io.result.Success? ==>
              var read := ReadRegisterIo(s, slave, RegConfig);
              read.result.Success? && ApplyConfig(Word(read.result.value), mode, cycle, averaging).Success?
  {
    var read := ReadRegisterIo(s, slave, RegConfig);
    if read.result.Failure? then Fail(read)
    else
      var applied := ApplyConfig(Word(read.result.value), mode, cycle, averaging);
      if !persistent then
        if applied.Failure? then Io(Failure(applied.error), read.sent, read.rest)
        else After(read.sent, I2cBase.WriteRegisterIo(read.rest, slave, RegConfig, RegisterBytes(applied.value)))
      else
        var unlock := I2cBase.WriteRegisterIo(read.rest, slave, RegEepromUnlock, RegisterBytes(EepromUnlockEnable));
        if unlock.result.Failure? then After(read.sent, Fail(unlock))
        else if applied.Failure? then Io(Failure(applied.error), read.sent + unlock.sent, unlock.rest)
        else
          var write := I2cBase.WriteRegisterIo(unlock.rest, slave, RegConfig, RegisterBytes(applied.value));
          if write.result.Failure? then After(read.sent + unlock.sent, Fail(write))
          else After(read.sent + unlock.sent + write.sent, ConfirmIo(write.rest, slave, applied.value))
  }

  /** The volatile path makes exactly one register write: the new value to the configuration register. */
  lemma VolatileWriteConfigWritesOnce(s: Script, slave: int, mode: Option<int>, cycle: Option<int>, averaging: Option<int>)
    requires WriteConfigIo(s, slave, false, mode, cycle, averaging).result.Success?
    ensures var read := ReadRegisterIo(s, slave, RegConfig);
            && read.result.Success?
            && var applied := ApplyConfig(Word(read.result.value), mode, cycle, averaging);
               && applied.Success?
               && WriteConfigIo(s, slave, false, mode, cycle, averaging).sent ==
                  read.sent + I2cBase.WriteRegisterIo(read.rest, slave, RegConfig, RegisterBytes(applied.value)).sent
  {
  }

  /**
   * The persistent path unlocks the EEPROM before writing the configuration, and succeeds
   * only when the value read back after the reset equals the value written.
   */
  lemma PersistentWriteConfigOrder(s: Script, slave: int, mode: Option<int>, cycle: Option<int>, averaging: Option<int>)
    requires WriteConfigIo(s, slave, true, mode, cycle, averaging).result.Success?
    ensures var read := ReadRegisterIo(s, slave, RegConfig);
            && read.result.Success?
            && var applied := ApplyConfig(Word(read.result.value), mode, cycle, averaging);
               var unlock := I2cBase.WriteRegisterIo(read.rest, slave, RegEepromUnlock, [0x80, 0x00]);
               && applied.Success? && unlock.result.Success?
               && var write := I2cBase.WriteRegisterIo(unlock.rest, slave, RegConfig, RegisterBytes(applied.value));
                  && write.result.Success?
                  && WriteConfigIo(s, slave, true, mode, cycle, averaging).sent ==
                     read.sent + unlock.sent + write.sent + ConfirmIo(write.rest, slave, applied.value).sent
                  && ConfirmIo(write.rest, slave, applied.value).result.Success?
  {
    UnlockBytes();
  }

  /** The unlock word goes out as the bytes 0x80, 0x00. */
  lemma UnlockBytes()
    ensures RegisterBytes(EepromUnlockEnable) == [0x80, 0x00]
  {
  }

  // The driver object

  class Tmp117 {
    const device: I2cBase.I2cDevice

    constructor (chip: Ntag5Link.Ntag5Link, address: int)
      ensures device.chip == chip && device.address == address
    {
      device := new I2cBase.I2cDevice(chip, address);
    }

    method ReadWordBack() returns (r: Result<seq<bv8>>)
      modifies device.chip.reader
      ensures device.chip.reader.Performed(ReadWordBackIo(old(device.chip.reader.script), device.address), r)
    {
      var requested := device.chip.ReadI2c(device.address, 2, true);
      if requested.Failure? {
        return Failure(requested.error);
      }
      var data := device.chip.ReadSram(0x00, 1);
      if data.Failure? {
        return Failure(data.error);
      }
      r := Success(Slice(data.value, 0, 2));
    }

    method ReadRegister(register: int) returns (r: Result<seq<bv8>>)
      modifies device.chip.reader
      ensures device.chip.reader.Performed(ReadRegisterIo(old(device.chip.reader.script), device.address, register), r)
    {
      var reader, address := device.chip.reader, device.address;
      ghost var s0, log0 := reader.script, reader.sent;
      ghost var poll := I2cBase.PollIdleIo(s0);
      var idle := device.WaitIdle();
      if idle.Failure? {
        return Failure(idle.error);
      }
      var reg := ByteOf(register);
      if reg.Failure? {
        return Failure(reg.error);
      }
      ghost var log1 := reader.sent;
      ghost var write := I2cBase.WriteAckIo(poll.rest, address, [reg.value]);
      var ack := device.WriteAck(address, [reg.value]);
      if ack.Failure? {
        LogTwoSteps(log0, log1, reader.sent, poll.sent, write.sent, ReadRegisterIo(s0, address, register).sent);
        return Failure(ack.error);
      }
      ghost var log2 := reader.sent;
      ghost var back := ReadWordBackIo(write.rest, address);
      r := ReadWordBack();
      LogTwoSteps(log0, log1, log2, poll.sent, write.sent, poll.sent + write.sent);
      LogTwoSteps(log0, log2, reader.sent, poll.sent + write.sent, back.sent, ReadRegisterIo(s0, address, register).sent);
    }

    method GetConfigInfo() returns (r: Result<ConfigInfo>)
      modifies device.chip.reader
      ensures device.chip.reader.Performed(GetConfigInfoIo(old(device.chip.reader.script), device.address), r)
    {
      var data := ReadRegister(RegConfig);
      if data.Failure? {
        return Failure(data.error);
      }
      r := Success(ConfigInfoOf(data.value));
    }

    /** The reads of `registers`, in order. */
    method ReadRegisters(registers: seq<int>) returns (r: Result<seq<seq<bv8>>>)
      modifies device.chip.reader
      ensures device.chip.reader.Performed(ReadRegistersIo(old(device.chip.reader.script), device.address, registers), r)
      decreases |registers|
    {
      var reader, address := device.chip.reader, device.address;
      ghost var s0, log0 := reader.script, reader.sent;
      if registers == [] {
        return Success([]);
      }
      ghost var firstIo := ReadRegisterIo(s0, address, registers[0]);
      var first := ReadRegister(registers[0]);
      if first.Failure? {
        return Failure(first.error);
      }
      ghost var log1 := reader.sent;
      ghost var othersIo := ReadRegistersIo(firstIo.rest, address, registers[1..]);
      var others := ReadRegisters(registers[1..]);
      LogTwoSteps(log0, log1, reader.sent, firstIo.sent, othersIo.sent, ReadRegistersIo(s0, address, registers).sent);
      if others.Failure? {
        return Failure(others.error);
      }
      r := Success([first.value] + others.value);
    }

    method GetEepromInfo() returns (r: Result<EepromInfo>)
      modifies device.chip.reader
      ensures device.chip.reader.Performed(GetEepromInfoIo(old(device.chip.reader.script), device.address), r)
    {
      var values := ReadRegisters(EepromInfoRegisters);
      if values.Failure? {
        return Failure(values.error);
      }
      r := Success(EepromInfoOf(values.value));
    }

    method ReadTemperature() returns (r: Result<Option<real>>)
      modifies device.chip.reader
      ensures device.chip.reader.Performed(ReadTemperatureIo(old(device.chip.reader.script), device.address), r)
    {
      var reader, address := device.chip.reader, device.address;
      ghost var s0, log0 := reader.script, reader.sent;
      ghost var first := ReadRegisterIo(s0, address, RegConfig);
      var config := ReadRegister(RegConfig);
      if config.Failure? {
        return Failure(config.error);
      }
      ReadTemperatureGatedByDataReady(s0, address);
      if Word(config.value) & DataReady == 0 {
        return Success(None);
      }
      ghost var log1 := reader.sent;
      ghost var second := ReadRegisterIo(reader.script, address, RegTempResult);
      var data := ReadRegister(RegTempResult);
      LogTwoSteps(log0, log1, reader.sent, first.sent, second.sent, ReadTemperatureIo(s0, address).sent);
      if data.Failure? {
        return Failure(data.error);
      }
      r := Success(Some(RawToCelsius(data.value)));
    }

    /** The EEPROM busy poll as a loop over the unlock register. */
    method WaitEeprom() returns (r: Result<()>)
      modifies device.chip.reader
      ensures device.chip.reader.Performed(EepromWaitIo(old(device.chip.reader.script), device.address), r)
    {
      var reader, address := device.chip.reader, device.address;
      ghost var s0, log0 := reader.script, reader.sent;
      ghost var goal := EepromWaitIo(s0, address);
      ghost var log := ReadRegisterIo(s0, address, RegEepromUnlock).sent;
      var status := ReadRegister(RegEepromUnlock);
      EepromWaitUnfold(s0, address);
      while status.Success? && EepromBusyOf(status.value)
        invariant status.Success? ==> |status.value| <= 2
        invariant reader.sent == log0 + log
        invariant goal == After(log, EepromWaitFrom(status, reader.script, address))
        decreases |reader.script| + (if status.Success? && EepromBusyOf(status.value) then 1 else 0)
      {
        ghost var t, log1 := reader.script, reader.sent;
        ghost var step := ReadRegisterIo(t, address, RegEepromUnlock).sent;
        status := ReadRegister(RegEepromUnlock);
        EepromWaitUnfold(t, address);
        AfterAssociative(log, step, EepromWaitFrom(status, reader.script, address));
        LogTwoSteps(log0, log1, reader.sent, log, step, log + step);
        log := log + step;
      }
      LogOneStep(log0, reader.sent, log, goal.sent);
      if status.Failure? {
        return Failure(status.error);
      }
      r := Success(());
    }

    /** The persistent tail of `write_config`: wait, reset by general call, re-read and compare. */
    method Confirm(config: bv16) returns (r: Result<()>)
      modifies device.chip.reader
      ensures device.chip.reader.Performed(ConfirmIo(old(device.chip.reader.script), device.address, config), r)
    {
      var reader, address := device.chip.reader, device.address;
      ghost var s0, log0 := reader.script, reader.sent;
      ghost var wait := EepromWaitIo(s0, address);
      var waited := WaitEeprom();
      if waited.Failure? {
        return Failure(waited.error);
      }
      ghost var log1 := reader.sent;
      ghost var resetIo := I2cBase.GeneralResetIo(wait.rest);
      var reset := device.GeneralReset();
      if reset.Failure? {
        LogTwoSteps(log0, log1, reader.sent, wait.sent, resetIo.sent, ConfirmIo(s0, address, config).sent);
        return Failure(reset.error);
      }
      ghost var log2 := reader.sent;
      LogTwoSteps(log0, log1, log2, wait.sent, resetIo.sent, wait.sent + resetIo.sent);
      ghost var read := ReadRegisterIo(resetIo.rest, address, RegConfig);
      var check := ReadRegister(RegConfig);
      LogTwoSteps(log0, log2, reader.sent, wait.sent + resetIo.sent, read.sent, ConfirmIo(s0, address, config).sent);
      if check.Failure? {
        return Failure(check.error);
      }
      if Word(check.value) != config {
        return Failure(EepromNotConfirmed);
      }
      r := Success(());
    }

    method WriteConfig(persistent: bool, mode: Option<int>, cycle: Option<int>, averaging: Option<int>)
      returns (r: Result<()>)
      modifies device.chip.reader
      ensures device.chip.reader.Performed(
                WriteConfigIo(old(device.chip.reader.script), device.address, persistent, mode, cycle, averaging), r)
    {
      var reader, address := device.chip.reader, device.address;
      ghost var s0, log0 := reader.script, reader.sent;
      ghost var whole := WriteConfigIo(s0, address, persistent, mode, cycle, averaging).sent;
      ghost var read := ReadRegisterIo(s0, address, RegConfig);
      var current := ReadRegister(RegConfig);
      if current.Failure? {
        return Failure(current.error);
      }
      ghost var log1 := reader.sent;
      var applied := UpdateConfig(Word(current.value), mode, cycle, averaging);
      if !persistent {
        if applied.Failure? {
          return Failure(applied.error);
        }
        ghost var write := I2cBase.WriteRegisterIo(read.rest, address, RegConfig, RegisterBytes(applied.value));
        r := device.WriteRegister(RegConfig, RegisterBytes(applied.value));
        LogTwoSteps(log0, log1, reader.sent, read.sent, write.sent, whole);
        return;
      }
      ghost var unlock := I2cBase.WriteRegisterIo(read.rest, address, RegEepromUnlock, RegisterBytes(EepromUnlockEnable));
      var unlocked := device.WriteRegister(RegEepromUnlock, RegisterBytes(EepromUnlockEnable));
      if unlocked.Failure? || applied.Failure? {
        LogTwoSteps(log0, log1, reader.sent, read.sent, unlock.sent, whole);
        return Failure(if unlocked.Failure? then unlocked.error else applied.error);
      }
      ghost var log2 := reader.sent;
      LogTwoSteps(log0, log1, log2, read.sent, unlock.sent, read.sent + unlock.sent);
      var config := applied.value;
      ghost var write := I2cBase.WriteRegisterIo(unlock.rest, address, RegConfig, RegisterBytes(config));
      var written := device.WriteRegister(RegConfig, RegisterBytes(config));
      if written.Failure? {
        LogTwoSteps(log0, log2, reader.sent, read.sent + unlock.sent, write.sent, whole);
        return Failure(written.error);
      }
      ghost var log3 := reader.sent;
      LogTwoSteps(log0, log2, log3, read.sent + unlock.sent, write.sent, read.sent + unlock.sent + write.sent);
      ghost var confirm := ConfirmIo(write.rest, address, config);
      r := Confirm(config);
      LogTwoSteps(log0, log3, reader.sent, read.sent + unlock.sent + write.sent, confirm.sent, whole);
    }
  }
}

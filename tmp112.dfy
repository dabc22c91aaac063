/**
 * The TMP112 temperature sensor: the unsigned temperature decoding, the configuration
 * register decoder with its fault-queue, resolution and conversion-rate tables, the
 * shutdown / one-shot configuration write and the temperature read gated by one-shot mode.
 *
 * The driver uses the register tunnel of `I2cBase` unchanged, always reading two bytes.
 */
module Tmp112 {
  import opened Errors
  import opened Bytes
  import opened Reader
  import Ntag5Link
  import I2cBase

  // Register addresses
  const RegTempResult: int := 0x00
  const RegConfig: int := 0x01
  const RegTlowLimit: int := 0x02
  const RegThighLimit: int := 0x03

  // Configuration register bits
  const ExtendedMode: bv16 := 0x0010
  const Alert: bv16 := 0x0020
  const ConvRateMask: bv16 := 0x00C0
  const ShutdownMode: bv16 := 0x0100
  const ThermostatMode: bv16 := 0x0200
  const AlertPolarity: bv16 := 0x0400
  const FaultQueueMask: bv16 := 0x1800
  const ResolutionMask: bv16 := 0x6000
  const OneShot: bv16 := 0x8000

  // Field values
  const FaultQueue1: bv16 := 0x0000
  const FaultQueue2: bv16 := 0x0800
  const FaultQueue4: bv16 := 0x1000
  const FaultQueue6: bv16 := 0x1800
  const Resolution12: bv16 := 0x6000
  const Conversion0_25: bv16 := 0x0000
  const Conversion1: bv16 := 0x0040
  const Conversion4: bv16 := 0x0080
  const Conversion8: bv16 := 0x00C0

  // Temperatures

  /** `raw_to_celsius`: the unsigned big-endian value shifted right by four, times 62.5 m°C. */
  function RawToCelsius(data: seq<bv8>): (t: real)
    requires |data| <= 2
    ensures t * 16.0 == ((Word(data) >> 4) as int) as real
  {
    (((Word(data) >> 4) as int) as real * 62.5) / 1000.0
  }

  /**
   * One unit of the shifted value is exactly 1/16 °C.  The value is taken unsigned, so every
   * reading lies in [0, 256): below-zero register values read as large positive temperatures.
   */
  lemma RawToCelsiusSixteenths(data: seq<bv8>)
    requires |data| <= 2
    ensures RawToCelsius(data) * 16.0 == ((Word(data) >> 4) as int) as real
    ensures 0.0 <= RawToCelsius(data) < 256.0
  {
  }

  /** The register value 0xFFF0, which the sensor uses for -0.0625 °C, decodes as 255.9375. */
  lemma NoSignExtension()
    ensures RawToCelsius([0xFF, 0xF0]) == 255.9375
  {
    assert Word([0xFF, 0xF0]) == 0xFFF0;
  }

  // The configuration register

  /** The two fault-queue bits as a count of consecutive faults. */
  function FaultQueueOf(config: bv16): (n: int)
    ensures n == 1 || n == 2 || n == 4 || n == 6
  {
    var bits := config & FaultQueueMask;
    if bits == FaultQueue1 then 1
    else if bits == FaultQueue2 then 2
    else if bits == FaultQueue4 then 4
    else if bits == FaultQueue6 then 6
    else 0
  }

  /** The fault-queue bits of a count of consecutive faults. */
  function FaultQueueBits(n: int): bv16 {
    if n == 1 then FaultQueue1
    else if n == 2 then FaultQueue2
    else if n == 4 then FaultQueue4
    else FaultQueue6
  }

  /** The fault-queue table is one to one: the count gives back the register bits. */
  lemma FaultQueueRoundTrip(config: bv16)
    ensures FaultQueueBits(FaultQueueOf(config)) == config & FaultQueueMask
  {
  }

  /** `"12 Bit"` exactly when both resolution bits are set, `"Unknown"` otherwise. */
  function ResolutionOf(config: bv16): (r: string)
    ensures r == "12 Bit" <==> config & ResolutionMask == ResolutionMask
    ensures r != "12 Bit" ==> r == "Unknown"
  {
    if config & ResolutionMask == Resolution12 then "12 Bit" else "Unknown"
  }

  /** The two conversion-rate bits as a rate. */
  function ConversionRateOf(config: bv16): (r: string)
    ensures r != "Unknown"
  {
    var bits := config & ConvRateMask;
    if bits == Conversion0_25 then "0.25 Hz"
    else if bits == Conversion1 then "1 Hz"
    else if bits == Conversion4 then "4 Hz"
    else if bits == Conversion8 then "8 Hz"
    else "Unknown"
  }

  /** The conversion-rate bits of a rate from the table. */
  function ConversionRateBits(rate: string): bv16 {
    if rate == "0.25 Hz" then Conversion0_25
    else if rate == "1 Hz" then Conversion1
    else if rate == "4 Hz" then Conversion4
    else Conversion8
  }

  /** The conversion-rate table is one to one: the rate gives back the register bits. */
  lemma ConversionRateRoundTrip(config: bv16)
    ensures ConversionRateBits(ConversionRateOf(config)) == config & ConvRateMask
  {
  }

  datatype ConfigInfo = ConfigInfo(
    tlowLimit: real, thighLimit: real,
    shutdownMode: bool, thermostatMode: bool, alertPolarityHigh: bool,
    oneshot: bool, extendedMode: bool, alert: bool,
    faultQueue: int, resolution: string, conversionRate: string)

  /** `get_config_info` after its three reads: the limits in degrees and the decoded flags. */
  function ConfigInfoOf(config: bv16, tlow: seq<bv8>, thigh: seq<bv8>): (info: ConfigInfo)
    requires |tlow| <= 2 && |thigh| <= 2
    ensures info.tlowLimit == RawToCelsius(tlow) && info.thighLimit == RawToCelsius(thigh)
    ensures info.shutdownMode <==> config & 0x0100 != 0
    ensures info.thermostatMode <==> config & 0x0200 != 0
    ensures info.alertPolarityHigh <==> config & 0x0400 != 0
    ensures info.oneshot <==> config & 0x8000 != 0
    ensures info.extendedMode <==> config & 0x0010 != 0
    ensures info.alert <==> config & 0x0020 != 0
  {
    ConfigInfo(
      RawToCelsius(tlow), RawToCelsius(thigh),
      config & ShutdownMode != 0, config & ThermostatMode != 0, config & AlertPolarity != 0,
      config & OneShot != 0, config & ExtendedMode != 0, config & Alert != 0,
      FaultQueueOf(config), ResolutionOf(config), ConversionRateOf(config))
  }

  /** `int.from_bytes(config[0:2])` on what `read_register` returned. */
  function ConfigWord(data: seq<bv8>): bv16 {
    Word(Slice(data, 0, 2))
  }

  /** `get_config_info`: the configuration, then the low and the high limit register. */
  function GetConfigInfoIo(s: Script, slave: int): (io: Io<ConfigInfo>)
  {
    var config := I2cBase.ReadRegisterIo(s, slave, RegConfig, 2);
    if config.result.Failure? then Fail(config)
    else
      var tlow := I2cBase.ReadRegisterIo(config.rest, slave, RegTlowLimit, 2);
      if tlow.result.Failure? then After(config.sent, Fail(tlow))
      else
        var thigh := I2cBase.ReadRegisterIo(tlow.rest, slave, RegThighLimit, 2);
        if thigh.result.Failure? then After(config.sent + tlow.sent, Fail(thigh))
        else Io(Success(ConfigInfoOf(ConfigWord(config.result.value), tlow.result.value, thigh.result.value)),
                config.sent + tlow.sent + thigh.sent, thigh.rest)
  }

  /**
   * A successful `get_config_info` read the configuration, the low limit and the high limit
   * in that order, and its record is decoded from exactly those three answers.
   */
  lemma GetConfigInfoReadsThreeRegisters(s: Script, slave: int)
    requires GetConfigInfoIo(s, slave).result.Success?
    ensures var config := I2cBase.ReadRegisterIo(s, slave, RegConfig, 2);
            && config.result.Success?
            && var tlow := I2cBase.ReadRegisterIo(config.rest, slave, RegTlowLimit, 2);
               && tlow.result.Success?
               && var thigh := I2cBase.ReadRegisterIo(tlow.rest, slave, RegThighLimit, 2);
                  && thigh.result.Success?
                  && GetConfigInfoIo(s, slave).sent == config.sent + tlow.sent + thigh.sent
                  && GetConfigInfoIo(s, slave).result.value.tlowLimit == RawToCelsius(tlow.result.value)
                  && GetConfigInfoIo(s, slave).result.value.thighLimit == RawToCelsius(thigh.result.value)
  {
  }

  // Configuration changes

  /**
   * A flag argument of `write_config` as a field update: `None` keeps the bit, a boolean
   * clears it and ORs in the flag or nothing.
   */
  function FlagField(flag: bv16, value: Option<bool>): (f: Field)
    requires flag == ShutdownMode || flag == OneShot
    ensures f.Put? <==> value.Some?
    ensures f.Put? ==> f.bits & !flag == 0 && (f.bits != 0 <==> value.value) && (f.bits == 0 || f.bits == flag)
  {
    if value.Some? then Put(if value.value then flag else 0) else Keep
  }

  /** Clearing one of the two flags and ORing in bits inside it sets that flag and nothing else. */
  lemma SetFlagKeeps(config: bv16, flag: bv16, bits: bv16)
    requires flag == ShutdownMode || flag == OneShot
    requires bits & !flag == 0
    ensures var r := SetField(config, flag, bits);
            r & flag == bits && r & !flag == config & !flag
  {
  }

  /** A flag update sets its own bit (or keeps it) and keeps every other bit. */
  lemma FlagStepKeeps(config: bv16, flag: bv16, field: Field)
    requires flag == ShutdownMode || flag == OneShot
    requires field.Put? ==> field.bits & !flag == 0
    ensures var r := FieldStep(config, flag, field);
            && r & flag == (if field.Put? then field.bits else config & flag)
            && r & !flag == config & !flag
  {
    if field.Put? {
      SetFlagKeeps(config, flag, field.bits);
    }
  }

  /** `write_config`'s two updates in its order: shutdown, then one-shot. */
  function ApplyFlags(config: bv16, shutdown: Option<bool>, oneshot: Option<bool>): bv16 {
    FieldStep(FieldStep(config, ShutdownMode, FlagField(ShutdownMode, shutdown)), OneShot, FlagField(OneShot, oneshot))
  }

  /** The bits `write_config` never changes. */
  const KeptBits: bv16 := !(ShutdownMode | OneShot)

  /** The two updates in a row, each through its own intermediate register value. */
  lemma FlagChainKeeps(config: bv16, c1: bv16, r: bv16, shutdown: Field, oneshot: Field)
    requires shutdown.Put? ==> shutdown.bits & !ShutdownMode == 0
    requires oneshot.Put? ==> oneshot.bits & !OneShot == 0
    requires c1 == FieldStep(config, ShutdownMode, shutdown)
    requires r == FieldStep(c1, OneShot, oneshot)
    ensures r & ShutdownMode == (if shutdown.Put? then shutdown.bits else config & ShutdownMode)
    ensures r & OneShot == (if oneshot.Put? then oneshot.bits else config & OneShot)
    ensures r & KeptBits == config & KeptBits
  {
    FlagStepKeeps(config, ShutdownMode, shutdown);
    FlagStepKeeps(c1, OneShot, oneshot);
  }

  /**
   * The shutdown bit becomes the supplied value (or stays), the one-shot bit likewise, and
   * every other bit of the register is kept.
   */
  lemma ApplyFlagsTouchesOnlyTwoBits(config: bv16, shutdown: Option<bool>, oneshot: Option<bool>)
    ensures var r := ApplyFlags(config, shutdown, oneshot);
            && (r & ShutdownMode != 0 <==> if shutdown.Some? then shutdown.value else config & ShutdownMode != 0)
            && (r & OneShot != 0 <==> if oneshot.Some? then oneshot.value else config & OneShot != 0)
            && r & KeptBits == config & KeptBits
  {
    var f1, f2 := FlagField(ShutdownMode, shutdown), FlagField(OneShot, oneshot);
    var c1 := FieldStep(config, ShutdownMode, f1);
    FlagChainKeeps(config, c1, FieldStep(c1, OneShot, f2), f1, f2);
  }

  /**
   * The default call `write_config()` supplies `shutdown_mode = False` and no one-shot
   * value: it clears the shutdown bit and keeps all others.
   */
  lemma DefaultWriteConfigClearsShutdown(config: bv16)
    ensures var r := ApplyFlags(config, Some(false), None);
            r & ShutdownMode == 0 && r & !ShutdownMode == config & !ShutdownMode
  {
    FlagStepKeeps(config, ShutdownMode, Put(0));
  }

  /** The driver's in-place `&=` / `|=` updates of the shutdown and one-shot bits. */
  method UpdateFlags(current: bv16, shutdown: Option<bool>, oneshot: Option<bool>) returns (config: bv16)
    ensures config == ApplyFlags(current, shutdown, oneshot)
  {
    config := UpdateField(current, ShutdownMode, FlagField(ShutdownMode, shutdown));
    config := UpdateField(config, OneShot, FlagField(OneShot, oneshot));
  }

  /** `write_config`: read the configuration, apply the flags, write the two bytes back. */
  function WriteConfigIo(s: Script, slave: int, shutdown: Option<bool>, oneshot: Option<bool>): (io: Io<()>)
    ensures io.result.Success? ==> I2cBase.ReadRegisterIo(s, slave, RegConfig, 2).result.Success?
  {
    var read := I2cBase.ReadRegisterIo(s, slave, RegConfig, 2);
    if read.result.Failure? then Fail(read)
    else
      var config := ApplyFlags(ConfigWord(read.result.value), shutdown, oneshot);
      After(read.sent, I2cBase.WriteRegisterIo(read.rest, slave, RegConfig, Values(BigEndian16(config))))
  }

  /** The register address and two value bytes `write_config` sends, as bytes. */
  lemma ConfigBytes(v: bv16)
    ensures BytesOf([RegConfig] + Values(BigEndian16(v))) == Success([0x01] + BigEndian16(v))
  {
    var b := BytesOf([RegConfig] + Values(BigEndian16(v)));
    var e: seq<bv8> := [0x01] + BigEndian16(v);
    assert |b.value| == 3;
    forall i | 0 <= i < 3
      ensures b.value[i] == e[i]
    {
      assert b.value[i] as int == ([RegConfig] + Values(BigEndian16(v)))[i];
    }
    assert b.value == e;
  }

  /**
   * A successful `write_config` ends with one I2C write of the configuration register
   * address and the new value, big-endian, and its status read.
   */
  lemma WriteConfigWritesNewValue(s: Script, slave: int, shutdown: Option<bool>, oneshot: Option<bool>)
    requires WriteConfigIo(s, slave, shutdown, oneshot).result.Success?
    ensures var read := I2cBase.ReadRegisterIo(s, slave, RegConfig, 2);
            && read.result.Success?
            && var config := ApplyFlags(ConfigWord(read.result.value), shutdown, oneshot);
               var idle := I2cBase.PollIdleIo(read.rest);
               && idle.result.Success?
               && WriteConfigIo(s, slave, shutdown, oneshot).sent ==
                  read.sent + (idle.sent + [I2cBase.WriteApdu(slave, [0x01] + BigEndian16(config)), I2cBase.StatusQuery])
  {
    var read := I2cBase.ReadRegisterIo(s, slave, RegConfig, 2);
    var config := ApplyFlags(ConfigWord(read.result.value), shutdown, oneshot);
    I2cBase.WriteRegisterSingleWrite(read.rest, slave, RegConfig, Values(BigEndian16(config)));
    ConfigBytes(config);
  }

  // Reading the temperature

  /** In shutdown mode with the one-shot bit still clear no conversion result is ready. */
  predicate AwaitingOneShot(config: bv16) {
    config & ShutdownMode != 0 && config & OneShot == 0
  }

  /** `read_temperature`: the result register is read unless a one-shot conversion is pending. */
  function ReadTemperatureIo(s: Script, slave: int): (io: Io<Option<real>>)
    ensures io.result.Success? ==>
              var config := I2cBase.ReadRegisterIo(s, slave, RegConfig, 2);
              && config.result.Success?
              && (io.result.value.None? <==> AwaitingOneShot(ConfigWord(config.result.value)))
  {
    var read := I2cBase.ReadRegisterIo(s, slave, RegConfig, 2);
    if read.result.Failure? then Fail(read)
    else if AwaitingOneShot(ConfigWord(read.result.value)) then Io(Success(None), read.sent, read.rest)
    else
      var temp := I2cBase.ReadRegisterIo(read.rest, slave, RegTempResult, 2);
      if temp.result.Failure? then After(read.sent, Fail(temp))
      else Io(Success(Some(RawToCelsius(temp.result.value))), read.sent + temp.sent, temp.rest)
  }

  /**
   * After a successful configuration read, `read_temperature` gives no value exactly when
   * shutdown is set and the one-shot bit is clear, and then reads nothing more; otherwise it
   * reads the result register and its value is that register in degrees.
   */
  lemma ReadTemperatureGatedByOneShot(s: Script, slave: int)
    requires I2cBase.ReadRegisterIo(s, slave, RegConfig, 2).result.Success?
    ensures var config := I2cBase.ReadRegisterIo(s, slave, RegConfig, 2);
            var word := ConfigWord(config.result.value);
            var io := ReadTemperatureIo(s, slave);
            && ((io.result.Success? && io.result.value.None?) <==> word & ShutdownMode != 0 && word & OneShot == 0)
            && (AwaitingOneShot(word) ==> io == Io(Success(None), config.sent, config.rest))
            && (!AwaitingOneShot(word) ==>
                  var temp := I2cBase.ReadRegisterIo(config.rest, slave, RegTempResult, 2);
                  && io.sent == config.sent + temp.sent
                  && (io.result.Success? <==> temp.result.Success?)
                  && (io.result.Success? ==> io.result.value == Some(RawToCelsius(temp.result.value))))
  {
  }

  // The driver object

  class Tmp112 {
    const device: I2cBase.I2cDevice

    constructor (chip: Ntag5Link.Ntag5Link, address: int)
      ensures device.chip == chip && device.address == address
    {
      device := new I2cBase.I2cDevice(chip, address);
    }

    method GetConfigInfo() returns (r: Result<ConfigInfo>)
      modifies device.chip.reader
      ensures device.chip.reader.Performed(GetConfigInfoIo(old(device.chip.reader.script), device.address), r)
    {
      var reader, address := device.chip.reader, device.address;
      ghost var s0, log0 := reader.script, reader.sent;
      ghost var whole := GetConfigInfoIo(s0, address).sent;
      ghost var configIo := I2cBase.ReadRegisterIo(s0, address, RegConfig, 2);
      var config := device.ReadRegister(RegConfig, 2);
      if config.Failure? {
        return Failure(config.error);
      }
      ghost var log1 := reader.sent;
      ghost var tlowIo := I2cBase.ReadRegisterIo(configIo.rest, address, RegTlowLimit, 2);
      var tlow := device.ReadRegister(RegTlowLimit, 2);
      if tlow.Failure? {
        LogTwoSteps(log0, log1, reader.sent, configIo.sent, tlowIo.sent, whole);
        return Failure(tlow.error);
      }
      ghost var log2 := reader.sent;
      LogTwoSteps(log0, log1, log2, configIo.sent, tlowIo.sent, configIo.sent + tlowIo.sent);
      ghost var thighIo := I2cBase.ReadRegisterIo(tlowIo.rest, address, RegThighLimit, 2);
      var thigh := device.ReadRegister(RegThighLimit, 2);
      LogTwoSteps(log0, log2, reader.sent, configIo.sent + tlowIo.sent, thighIo.sent, whole);
      if thigh.Failure? {
        return Failure(thigh.error);
      }
      r := Success(ConfigInfoOf(ConfigWord(config.value), tlow.value, thigh.value));
    }

    method WriteConfig(shutdown: Option<bool>, oneshot: Option<bool>) returns (r: Result<()>)
      modifies device.chip.reader
      ensures device.chip.reader.Performed(WriteConfigIo(old(device.chip.reader.script), device.address, shutdown, oneshot), r)
    {
      var reader, address := device.chip.reader, device.address;
      ghost var s0, log0 := reader.script, reader.sent;
      ghost var read := I2cBase.ReadRegisterIo(s0, address, RegConfig, 2);
      var current := device.ReadRegister(RegConfig, 2);
      if current.Failure? {
        return Failure(current.error);
      }
      ghost var log1 := reader.sent;
      var config := UpdateFlags(ConfigWord(current.value), shutdown, oneshot);
      ghost var write := I2cBase.WriteRegisterIo(read.rest, address, RegConfig, Values(BigEndian16(config)));
      r := device.WriteRegister(RegConfig, Values(BigEndian16(config)));
      LogTwoSteps(log0, log1, reader.sent, read.sent, write.sent, WriteConfigIo(s0, address, shutdown, oneshot).sent);
    }

    method ReadTemperature() returns (r: Result<Option<real>>)
      modifies device.chip.reader
      ensures device.chip.reader.Performed(ReadTemperatureIo(old(device.chip.reader.script), device.address), r)
    {
      var reader, address := device.chip.reader, device.address;
      ghost var s0, log0 := reader.script, reader.sent;
      ghost var first := I2cBase.ReadRegisterIo(s0, address, RegConfig, 2);
      var data := device.ReadRegister(RegConfig, 2);
      if data.Failure? {
        return Failure(data.error);
      }
      var config := ConfigWord(data.value);
      if config & ShutdownMode != 0 {
        if config & OneShot == 0 {
          return Success(None);
        }
      }
      ghost var log1 := reader.sent;
      ghost var second := I2cBase.ReadRegisterIo(first.rest, address, RegTempResult, 2);
      var temp := device.ReadRegister(RegTempResult, 2);
      LogTwoSteps(log0, log1, reader.sent, first.sent, second.sent, ReadTemperatureIo(s0, address).sent);
      if temp.Failure? {
        return Failure(temp.error);
      }
      r := Success(Some(RawToCelsius(temp.value)));
    }
  }
}

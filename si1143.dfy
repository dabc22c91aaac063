/**
 * The Si1143 proximity / ambient-light sensor: the fixed I2C address, the hardware-key write
 * that `initialize` performs, and the part-id and sequencer-id lookups of `get_info`.
 *
 * `get_info` compares what `read_register` returned (a byte string) with integer constants.
 * In Python a byte string never equals an integer, so as written both lookups always give
 * "Unknown"; `PartNameAsWritten` and `SequencerNameAsWritten` model that, and the decoder
 * the rest of the model uses looks the first byte up instead.
 */
module Si1143 {
  import opened Errors
  import opened Bytes
  import opened Reader
  import Ntag5Link
  import I2cBase

  const Address: int := 0x5A

  // Register addresses
  const RegPartId: int := 0x00
  const RegRevId: int := 0x01
  const RegSeqId: int := 0x02
  const RegHwKey: int := 0x07

  // Part ids
  const PartSi1141: bv8 := 0x41
  const PartSi1142: bv8 := 0x42
  const PartSi1143: bv8 := 0x43

  // Sequencer ids
  const SeqA01: bv8 := 0x01
  const SeqA02: bv8 := 0x02
  const SeqA03: bv8 := 0x03
  const SeqA10: bv8 := 0x08
  const SeqA11: bv8 := 0x09

  /** The value the hardware-key register needs before the chip leaves its initial state. */
  const HwKeyValue: int := 0x17

  // Lookups

  /** The part named by a part-id byte. */
  function PartName(id: bv8): (name: string)
    ensures name != "Unknown" <==> id == PartSi1141 || id == PartSi1142 || id == PartSi1143
  {
    if id == PartSi1141 then "Si1141"
    else if id == PartSi1142 then "Si1142"
    else if id == PartSi1143 then "Si1143"
    else "Unknown"
  }

  /** The part-id byte of a known part name. */
  function PartIdOf(name: string): Option<bv8> {
    if name == "Si1141" then Some(PartSi1141)
    else if name == "Si1142" then Some(PartSi1142)
    else if name == "Si1143" then Some(PartSi1143)
    else None
  }

  /** The part table is one to one: a known name gives back its id byte, "Unknown" gives none. */
  lemma PartNameRoundTrip(id: bv8)
    ensures PartIdOf(PartName(id)) == (if PartName(id) == "Unknown" then None else Some(id))
  {
  }

  /** The sequencer revision named by a sequencer-id byte. */
  function SequencerName(id: bv8): (name: string)
    ensures name != "Unknown" <==> id == SeqA01 || id == SeqA02 || id == SeqA03 || id == SeqA10 || id == SeqA11
  {
    if id == SeqA01 then "Si114x-A01"
    else if id == SeqA02 then "Si114x-A02"
    else if id == SeqA03 then "Si114x-A03"
    else if id == SeqA10 then "Si114x-A10"
    else if id == SeqA11 then "Si114x-A11"
    else "Unknown"
  }

  /** The sequencer-id byte of a known sequencer name. */
  function SequencerIdOf(name: string): Option<bv8> {
    if name == "Si114x-A01" then Some(SeqA01)
    else if name == "Si114x-A02" then Some(SeqA02)
    else if name == "Si114x-A03" then Some(SeqA03)
    else if name == "Si114x-A10" then Some(SeqA10)
    else if name == "Si114x-A11" then Some(SeqA11)
    else None
  }

  /** The sequencer table is one to one: a known name gives back its id byte. */
  lemma SequencerNameRoundTrip(id: bv8)
    ensures SequencerIdOf(SequencerName(id)) == (if SequencerName(id) == "Unknown" then None else Some(id))
  {
  }

  // The decoding as written and as intended

  /** Python's `==` between a byte string and an integer: never true, whatever the two hold. */
  predicate BytesEqualInt(data: seq<bv8>, value: int) {
    false
  }

  /** `get_info`'s part lookup as written: the byte string read is compared with the integer ids. */
  function PartNameAsWritten(data: seq<bv8>): string {
    if BytesEqualInt(data, PartSi1141 as int) then "Si1141"
    else if BytesEqualInt(data, PartSi1142 as int) then "Si1142"
    else if BytesEqualInt(data, PartSi1143 as int) then "Si1143"
    else "Unknown"
  }

  /** `get_info`'s sequencer lookup as written. */
  function SequencerNameAsWritten(data: seq<bv8>): string {
    if BytesEqualInt(data, SeqA01 as int) then "Si114x-A01"
    else if BytesEqualInt(data, SeqA02 as int) then "Si114x-A02"
    else if BytesEqualInt(data, SeqA03 as int) then "Si114x-A03"
    else if BytesEqualInt(data, SeqA10 as int) then "Si114x-A10"
    else if BytesEqualInt(data, SeqA11 as int) then "Si114x-A11"
    else "Unknown"
  }

  /** As written, both lookups answer "Unknown" for every answer of the chip. */
  lemma AsWrittenAlwaysUnknown(data: seq<bv8>)
    ensures PartNameAsWritten(data) == "Unknown"
    ensures SequencerNameAsWritten(data) == "Unknown"
  {
  }

  /** An Si1143 with sequencer A11 answers `[0x43]` and `[0x09]`, which the code as written does not recognise. */
  lemma AsWrittenMissesSi1143()
    ensures PartNameAsWritten([0x43]) == "Unknown" && PartNameOf([0x43]) == "Si1143"
    ensures SequencerNameAsWritten([0x09]) == "Unknown" && SequencerNameOf([0x09]) == "Si114x-A11"
  {
  }

  /** The intended part lookup: the single byte read, looked up in the part table. */
  function PartNameOf(data: seq<bv8>): (name: string)
    ensures |data| == 1 ==> name == PartName(data[0])
    ensures |data| == 0 ==> name == "Unknown"
  {
    if |data| == 0 then "Unknown" else PartName(data[0])
  }

  /** The intended sequencer lookup. */
  function SequencerNameOf(data: seq<bv8>): (name: string)
    ensures |data| == 1 ==> name == SequencerName(data[0])
    ensures |data| == 0 ==> name == "Unknown"
  {
    if |data| == 0 then "Unknown" else SequencerName(data[0])
  }

  /** The intended lookups recognise exactly the listed part and sequencer ids. */
  lemma IntendedLookupRecognisesIds(data: seq<bv8>)
    requires |data| == 1
    ensures PartNameOf(data) != "Unknown" <==> data[0] in {PartSi1141, PartSi1142, PartSi1143}
    ensures SequencerNameOf(data) != "Unknown" <==> data[0] in {SeqA01, SeqA02, SeqA03, SeqA10, SeqA11}
  {
  }

  datatype Info = Info(partId: string, revId: seq<bv8>, seqId: string)

  /** `get_info` after its three reads. */
  function InfoOf(part: seq<bv8>, rev: seq<bv8>, sequencer: seq<bv8>): Info {
    Info(PartNameOf(part), rev, SequencerNameOf(sequencer))
  }

  // The operations

  /** `initialize`: write the hardware key to its register. */
  function InitializeIo(s: Script): (io: Io<()>)
    ensures io.result.Success? ==> I2cBase.PollIdleIo(s).result.Success?
  {
    I2cBase.WriteRegisterIo(s, Address, RegHwKey, [HwKeyValue])
  }

  /**
   * A successful `initialize` sends, after the bus poll, one I2C write of `[0x07, 0x17]` to
   * address 0x5A and one status read.
   */
  lemma InitializeWritesHardwareKey(s: Script)
    requires InitializeIo(s).result.Success?
    ensures var idle := I2cBase.PollIdleIo(s);
            && idle.result.Success?
            && InitializeIo(s).sent == idle.sent + [I2cBase.WriteApdu(0x5A, [0x07, 0x17]), I2cBase.StatusQuery]
  {
    I2cBase.WriteRegisterSingleWrite(s, Address, RegHwKey, [HwKeyValue]);
    var b := BytesOf([RegHwKey] + [HwKeyValue]).value;
    assert b[0] as int == 0x07 && b[1] as int == 0x17;
    assert b == [0x07, 0x17];
  }

  /** `get_info`: the part id, the revision and the sequencer id, one byte each. */
  function GetInfoIo(s: Script): (io: Io<Info>)
  {
    var part := I2cBase.ReadRegisterIo(s, Address, RegPartId, 1);
    if part.result.Failure? then Fail(part)
    else
      var rev := I2cBase.ReadRegisterIo(part.rest, Address, RegRevId, 1);
      if rev.result.Failure? then After(part.sent, Fail(rev))
      else
        var sequencer := I2cBase.ReadRegisterIo(rev.rest, Address, RegSeqId, 1);
        if sequencer.result.Failure? then After(part.sent + rev.sent, Fail(sequencer))
        else Io(Success(InfoOf(part.result.value, rev.result.value, sequencer.result.value)),
                part.sent + rev.sent + sequencer.sent, sequencer.rest)
  }

  /**
   * A successful `get_info` read one byte from each of the three id registers, and its record
   * names the part and the sequencer those bytes identify.
   */
  lemma GetInfoNamesReadIds(s: Script)
    requires GetInfoIo(s).result.Success?
    ensures var part := I2cBase.ReadRegisterIo(s, Address, RegPartId, 1);
            && part.result.Success?
            && var rev := I2cBase.ReadRegisterIo(part.rest, Address, RegRevId, 1);
               && rev.result.Success?
               && var sequencer := I2cBase.ReadRegisterIo(rev.rest, Address, RegSeqId, 1);
                  && sequencer.result.Success?
                  && |part.result.value| <= 1 && |rev.result.value| <= 1 && |sequencer.result.value| <= 1
                  && GetInfoIo(s).result.value.partId == PartNameOf(part.result.value)
                  && GetInfoIo(s).result.value.revId == rev.result.value
                  && GetInfoIo(s).result.value.seqId == SequencerNameOf(sequencer.result.value)
  {
  }

  /** `get_info` after its three reads, with the lookups as written. */
  function InfoAsWrittenOf(part: seq<bv8>, rev: seq<bv8>, sequencer: seq<bv8>): Info {
    Info(PartNameAsWritten(part), rev, SequencerNameAsWritten(sequencer))
  }

  /** `get_info` as written: the same three reads, named by the written lookups. */
  function GetInfoAsWrittenIo(s: Script): Io<Info> {
    var part := I2cBase.ReadRegisterIo(s, Address, RegPartId, 1);
    if part.result.Failure? then Fail(part)
    else
      var rev := I2cBase.ReadRegisterIo(part.rest, Address, RegRevId, 1);
      if rev.result.Failure? then After(part.sent, Fail(rev))
      else
        var sequencer := I2cBase.ReadRegisterIo(rev.rest, Address, RegSeqId, 1);
        if sequencer.result.Failure? then After(part.sent + rev.sent, Fail(sequencer))
        else Io(Success(InfoAsWrittenOf(part.result.value, rev.result.value, sequencer.result.value)),
                part.sent + rev.sent + sequencer.sent, sequencer.rest)
  }

  /**
   * `get_info` as written sends the same frames and fails in the same way as the intended one;
   * when it succeeds it reports the same revision, but "Unknown" for the part and the sequencer.
   */
  lemma GetInfoAsWrittenNamesNothing(s: Script)
    ensures GetInfoAsWrittenIo(s).sent == GetInfoIo(s).sent
    ensures GetInfoAsWrittenIo(s).rest == GetInfoIo(s).rest
    ensures GetInfoAsWrittenIo(s).result.Success? <==> GetInfoIo(s).result.Success?
    ensures GetInfoAsWrittenIo(s).result.Failure? ==>
              GetInfoAsWrittenIo(s).result == GetInfoIo(s).result
    ensures GetInfoAsWrittenIo(s).result.Success? ==>
              GetInfoAsWrittenIo(s).result.value
                == Info("Unknown", GetInfoIo(s).result.value.revId, "Unknown")
  {
    var part := I2cBase.ReadRegisterIo(s, Address, RegPartId, 1);
    if part.result.Success? {
      var rev := I2cBase.ReadRegisterIo(part.rest, Address, RegRevId, 1);
      if rev.result.Success? {
        var sequencer := I2cBase.ReadRegisterIo(rev.rest, Address, RegSeqId, 1);
        if sequencer.result.Success? {
          AsWrittenAlwaysUnknown(part.result.value);
          AsWrittenAlwaysUnknown(sequencer.result.value);
        }
      }
    }
  }

  // The driver object

  class Si1143 {
    const device: I2cBase.I2cDevice

    /** The driver always talks to address 0x5A. */
    constructor (chip: Ntag5Link.Ntag5Link)
      ensures device.chip == chip && device.address == 0x5A
    {
      device := new I2cBase.I2cDevice(chip, Address);
    }

    method Initialize() returns (r: Result<()>)
      requires device.address == Address
      modifies device.chip.reader
      ensures device.chip.reader.Performed(InitializeIo(old(device.chip.reader.script)), r)
    {
      r := device.WriteRegister(RegHwKey, [HwKeyValue]);
    }

    method GetInfo() returns (r: Result<Info>)
      requires device.address == Address
      modifies device.chip.reader
      ensures device.chip.reader.Performed(GetInfoIo(old(device.chip.reader.script)), r)
    {
      var reader := device.chip.reader;
      ghost var s0, log0 := reader.script, reader.sent;
      ghost var whole := GetInfoIo(s0).sent;
      ghost var partIo := I2cBase.ReadRegisterIo(s0, Address, RegPartId, 1);
      var part := device.ReadRegister(RegPartId, 1);
      if part.Failure? {
        return Failure(part.error);
      }
      ghost var log1 := reader.sent;
      ghost var revIo := I2cBase.ReadRegisterIo(partIo.rest, Address, RegRevId, 1);
      var rev := device.ReadRegister(RegRevId, 1);
      if rev.Failure? {
        LogTwoSteps(log0, log1, reader.sent, partIo.sent, revIo.sent, whole);
        return Failure(rev.error);
      }
      ghost var log2 := reader.sent;
      LogTwoSteps(log0, log1, log2, partIo.sent, revIo.sent, partIo.sent + revIo.sent);
      ghost var sequencerIo := I2cBase.ReadRegisterIo(revIo.rest, Address, RegSeqId, 1);
      var sequencer := device.ReadRegister(RegSeqId, 1);
      LogTwoSteps(log0, log2, reader.sent, partIo.sent + revIo.sent, sequencerIo.sent, whole);
      if sequencer.Failure? {
        return Failure(sequencer.error);
      }
      r := Success(InfoOf(part.value, rev.value, sequencer.value));
    }
  }
}

/**
 * The register tunnel every I2C peripheral driver sits on: wait until the NTAG 5 I2C master
 * is idle, write the register address (and data) to the peripheral, check the
 * acknowledgment, and for a read pull the answer back through the SRAM.
 *
 * The busy poll asks `check_i2c_busy` until it answers False.  It has no time-out; here it
 * ends because every question consumes one scripted reply, and a script that runs out ends
 * it with a transport failure.
 */
module I2cBase {
  import opened Errors
  import opened Bytes
  import opened Reader
  import opened Ntag5Link

  /** The I2C general-call address and the reset command sent to it. */
  const GeneralCallAddress: int := 0x00
  const GeneralCallReset: int := 0x06

  /** The APDU of one status-register read (`check_i2c_busy`, `check_i2c_write_result`). */
  const StatusQuery: seq<bv8> := ExchangeApdu(VendorRead(CmdReadConfig, I2cMasterStatusRegister, 0))

  /** The APDU that writes `data` to `slave` with a stop condition. */
  function WriteApdu(slave: int, data: seq<bv8>): seq<bv8>
    requires 1 <= |data| && |data| + 5 <= MaxFrame
  {
    ExchangeApdu(WriteI2cFrame(SlaveParameter(slave, true), data))
  }

  /** `math.ceil(length / 4.0)`: the SRAM pages of four bytes that hold `length` bytes. */
  function Pages(length: int): (n: int)
    requires length >= 1
    ensures n >= 1 && 4 * (n - 1) < length <= 4 * n
  {
    (length + 3) / 4
  }

  // The busy poll

  /**
   * `while check_i2c_busy(): wait`.  Every status read but the last answered busy, the last
   * one (on success) answered idle, and nothing but status reads is sent.
   */
  function PollIdleIo(s: Script): (io: Io<()>)
    ensures 1 <= |io.sent| <= |s| + 1 && forall k | 0 <= k < |io.sent| :: io.sent[k] == StatusQuery
    ensures |io.rest| <= |s|
    decreases |s|
  {
    var busy := CheckI2cBusyIo(s);
    if busy.result.Failure? then Fail(busy)
    else if !busy.result.value then Io(Success(()), busy.sent, busy.rest)
    else After(busy.sent, PollIdleIo(busy.rest))
  }

  /**
   * A poll that succeeds has consumed one reply per status read, and its last status read
   * answered "not busy".
   */
  lemma {:induction false} PollIdleEndsIdle(s: Script)
    requires PollIdleIo(s).result.Success?
    ensures var io := PollIdleIo(s);
            |io.sent| <= |s| && io.rest == s[|io.sent|..]
            && CheckI2cBusyIo(s[|io.sent| - 1..]).result == Success(false)
    decreases |s|
  {
    var busy := CheckI2cBusyIo(s);
    if busy.result.value {
      var more := PollIdleIo(s[1..]);
      PollIdleEndsIdle(s[1..]);
      assert s[1..][|more.sent|..] == s[|more.sent| + 1..];
      assert s[1..][|more.sent| - 1..] == s[|more.sent|..];
    }
  }

  /** Every status read of the poll but the last one answered "busy". */
  lemma {:induction false} PollIdleWaitsWhileBusy(s: Script, k: nat)
    requires k + 1 < |PollIdleIo(s).sent|
    ensures k < |s| && CheckI2cBusyIo(s[k..]).result == Success(true)
    decreases k
  {
    var busy := CheckI2cBusyIo(s);
    if k > 0 {
      PollIdleWaitsWhileBusy(s[1..], k - 1);
      assert s[1..][k - 1..] == s[k..];
    }
  }

  /** What the poll still does after one status read answered `busy` and left `rest`. */
  function PollFrom(busy: Result<bool>, rest: Script): Io<()> {
    if busy.Failure? then Io(Failure(busy.error), [], rest)
    else if !busy.value then Io(Success(()), [], rest)
    else PollIdleIo(rest)
  }

  lemma PollUnfold(s: Script)
    ensures var busy := CheckI2cBusyIo(s);
            PollIdleIo(s) == After(busy.sent, PollFrom(busy.result, busy.rest))
  {
  }

  // Writing with acknowledgment

  /**
   * `write_i2c(slave, data)` followed by `check_i2c_write_result()`, raising when it answers
   * False.  On success exactly the write and one status read were sent.
   */
  function WriteAckIo(s: Script, slave: int, data: seq<bv8>): (io: Io<()>)
    ensures |io.rest| <= |s|
    ensures |io.sent| <= 2
    ensures (|data| < 1 || |data| + 5 > MaxFrame) ==> io == Io(Failure(if |data| < 1 then NoByteToWrite else ByteOutOfRange), [], s)
    ensures 1 <= |data| && |data| + 5 <= MaxFrame ==> |io.sent| >= 1 && io.sent[0] == WriteApdu(slave, data)
    ensures io.result.Success? ==>
              1 <= |data| && |data| + 5 <= MaxFrame
              && io.sent == [WriteApdu(slave, data), StatusQuery] && |s| >= 2 && io.rest == s[2..]
  {
    var write := WriteI2cIo(s, slave, data, true);
    if write.result.Failure? then Fail(write)
    else
      var ack := CheckI2cWriteResultIo(write.rest);
      if ack.result.Failure? then After(write.sent, Fail(ack))
      else if !ack.result.value then Io(Failure(NotAcknowledged), write.sent + ack.sent, ack.rest)
      else Io(Success(()), write.sent + ack.sent, ack.rest)
  }

  // Reading back through the SRAM

  /**
   * `read_i2c(slave, length)` then `read_sram(num_blocks = ceil(length / 4))`, keeping the
   * first `length` bytes of the SRAM answer.
   */
  function ReadBackIo(s: Script, slave: int, length: int): (io: Io<seq<bv8>>)
    ensures |io.rest| <= |s|
    ensures length < 1 ==> io == Io(Failure(NoByteRequested), [], s)
    ensures io.result.Success? ==>
              1 <= length <= 256 && |s| >= 2 && io.rest == s[2..]
              && io.sent == [ExchangeApdu(VendorRead(CmdReadI2c, SlaveParameter(slave, true), ToByte(length - 1))),
                             ExchangeApdu(VendorRead(CmdReadSram, 0x00, ToByte(Pages(length) - 1)))]
              && var sram := ReadSramIo(s[1..], 0x00, Pages(length));
                 sram.result.Success? && io.result.value == Slice(sram.result.value, 0, length)
  {
    var read := ReadI2cIo(s, slave, length, true);
    if read.result.Failure? then Fail(read)
    else
      var sram := ReadSramIo(read.rest, 0x00, Pages(length));
      if sram.result.Failure? then After(read.sent, Fail(sram))
      else Io(Success(Slice(sram.result.value, 0, length)), read.sent + sram.sent, sram.rest)
  }

  // The three tunnel operations

  /** `read_register(register, length)`: poll, write `[register]`, check, read back. */
  function ReadRegisterIo(s: Script, slave: int, register: int, length: int): (io: Io<seq<bv8>>)
    ensures |io.rest| <= |s|
    ensures io.result.Success? ==> |io.rest| < |s| && |io.result.value| <= length
    ensures PollIdleIo(s).sent <= io.sent
    ensures |io.sent| > |PollIdleIo(s).sent| ==> PollIdleIo(s).result.Success?
  {
    var idle := PollIdleIo(s);
    if idle.result.Failure? then Fail(idle)
    else
      var reg := ByteOf(register);
      if reg.Failure? then Io(Failure(reg.error), idle.sent, idle.rest)
      else
        var ack := WriteAckIo(idle.rest, slave, [reg.value]);
        if ack.result.Failure? then After(idle.sent, Fail(ack))
        else After(idle.sent + ack.sent, ReadBackIo(ack.rest, slave, length))
  }

  /** `write_register(register, data)`: poll, write `[register] + data` in one go, check. */
  function WriteRegisterIo(s: Script, slave: int, register: int, data: seq<int>): (io: Io<()>)
    ensures |io.rest| <= |s|
    ensures io.result.Success? ==> |io.rest| < |s|
    ensures PollIdleIo(s).sent <= io.sent
    ensures |io.sent| > |PollIdleIo(s).sent| ==> PollIdleIo(s).result.Success?
  {
    var idle := PollIdleIo(s);
    if idle.result.Failure? then Fail(idle)
    else
      var bytes := BytesOf([register] + data);
      if bytes.Failure? then Io(Failure(bytes.error), idle.sent, idle.rest)
      else After(idle.sent, WriteAckIo(idle.rest, slave, bytes.value))
  }

  /** `general_reset()`: poll, then write the reset command to the general-call address. */
  function GeneralResetIo(s: Script): (io: Io<()>)
    ensures |io.rest| <= |s|
    ensures io.result.Success? ==> |io.rest| < |s|
    ensures PollIdleIo(s).sent <= io.sent
    ensures |io.sent| > |PollIdleIo(s).sent| ==> PollIdleIo(s).result.Success?
  {
    var idle := PollIdleIo(s);
    if idle.result.Failure? then Fail(idle)
    else After(idle.sent, WriteAckIo(idle.rest, GeneralCallAddress, [ToByte(GeneralCallReset)]))
  }

  // Properties of the tunnel

  /**
   * `sent` went out on a bus first polled from `s`: everything past the poll comes after a
   * run of status reads whose last one answered "not busy".
   */
  ghost predicate WaitedForIdle(s: Script, sent: seq<seq<bv8>>) {
    var idle := PollIdleIo(s);
    |sent| > |idle.sent| ==>
      && idle.sent <= sent
      && (forall k | 0 <= k < |idle.sent| :: sent[k] == StatusQuery)
      && CheckI2cBusyIo(s[|idle.sent| - 1..]).result == Success(false)
  }

  /** A log that extends the poll, and extends it only after a successful poll, waited. */
  lemma ExtendsPoll(s: Script, sent: seq<seq<bv8>>)
    requires PollIdleIo(s).sent <= sent
    requires |sent| > |PollIdleIo(s).sent| ==> PollIdleIo(s).result.Success?
    ensures WaitedForIdle(s, sent)
  {
    if |sent| > |PollIdleIo(s).sent| {
      PollIdleEndsIdle(s);
    }
  }

  /** No I2C transfer is issued by any of the three operations until the bus is idle. */
  lemma NoTransferUntilIdle(s: Script, slave: int, register: int, length: int, data: seq<int>)
    ensures WaitedForIdle(s, ReadRegisterIo(s, slave, register, length).sent)
    ensures WaitedForIdle(s, WriteRegisterIo(s, slave, register, data).sent)
    ensures WaitedForIdle(s, GeneralResetIo(s).sent)
  {
    ExtendsPoll(s, ReadRegisterIo(s, slave, register, length).sent);
    ExtendsPoll(s, WriteRegisterIo(s, slave, register, data).sent);
    ExtendsPoll(s, GeneralResetIo(s).sent);
  }

  /**
   * `read_register` writes exactly `[register]` to the peripheral right after the poll, and
   * when the acknowledgment check fails nothing is read: the answer ends with the write
   * and its status read.
   */
  lemma ReadRegisterWritesAddressFirst(s: Script, slave: int, register: int, length: int)
    requires 0 <= register < 256
    requires PollIdleIo(s).result.Success?
    ensures var idle := PollIdleIo(s);
            var io := ReadRegisterIo(s, slave, register, length);
            |io.sent| > |idle.sent| && io.sent[|idle.sent|] == WriteApdu(slave, [ToByte(register)])
  {
  }

  lemma NoReadAfterNak(s: Script, slave: int, register: int, length: int)
    requires 0 <= register < 256
    requires PollIdleIo(s).result.Success?
    requires WriteAckIo(PollIdleIo(s).rest, slave, [ToByte(register)]).result.Failure?
    ensures var idle := PollIdleIo(s);
            var io := ReadRegisterIo(s, slave, register, length);
            io.result.Failure? && |idle.sent| < |io.sent| <= |idle.sent| + 2
            && io.sent == idle.sent + WriteAckIo(idle.rest, slave, [ToByte(register)]).sent
  {
  }

  /**
   * A successful `read_register` sends, after the poll, the register write, its status read,
   * an I2C read of `length` bytes and an SRAM read of `ceil(length / 4)` pages.
   */
  lemma ReadRegisterSendsFrames(s: Script, slave: int, register: int, length: int)
    requires ReadRegisterIo(s, slave, register, length).result.Success?
    ensures 0 <= register < 256 && 1 <= length <= 256
    ensures var idle := PollIdleIo(s);
            idle.result.Success?
            && ReadRegisterIo(s, slave, register, length).sent ==
               idle.sent + [WriteApdu(slave, [ToByte(register)]), StatusQuery,
                            ExchangeApdu(VendorRead(CmdReadI2c, SlaveParameter(slave, true), ToByte(length - 1))),
                            ExchangeApdu(VendorRead(CmdReadSram, 0x00, ToByte(Pages(length) - 1)))]
  {
    ReadRegisterSteps(s, slave, register, length);
    var idle := PollIdleIo(s);
    var ack := WriteAckIo(idle.rest, slave, [ToByte(register)]);
    var back := ReadBackIo(ack.rest, slave, length);
    SentInOrder(idle.sent, ack.sent, back.sent, ReadRegisterIo(s, slave, register, length).sent);
  }

  lemma SentInOrder(first: seq<seq<bv8>>, second: seq<seq<bv8>>, third: seq<seq<bv8>>, sent: seq<seq<bv8>>)
    requires sent == (first + second) + third && |second| == 2 && |third| == 2
    ensures sent == first + [second[0], second[1], third[0], third[1]]
  {
    assert second == [second[0], second[1]] && third == [third[0], third[1]];
  }

  /**
   * A successful `read_register` returns exactly the first `length` bytes of the
   * `ceil(length / 4)` SRAM pages it fetched.
   */
  lemma ReadRegisterReadsPages(s: Script, slave: int, register: int, length: int)
    requires ReadRegisterIo(s, slave, register, length).result.Success?
    ensures 1 <= length <= 256 && PollIdleIo(s).result.Success? && |PollIdleIo(s).rest| >= 3
    ensures var value := ReadRegisterIo(s, slave, register, length).result.value;
            var sram := ReadSramIo(PollIdleIo(s).rest[3..], 0x00, Pages(length));
            && 4 * (Pages(length) - 1) < length <= 4 * Pages(length)
            && sram.result.Success? && value == Slice(sram.result.value, 0, length)
            && |value| == Min(length, |sram.result.value|)
  {
    ReadRegisterSteps(s, slave, register, length);
    var idle := PollIdleIo(s);
    var ack := WriteAckIo(idle.rest, slave, [ToByte(register)]);
    assert ack.rest[1..] == idle.rest[3..];
  }

  /** A successful `read_register` is the poll, the acknowledged write, then the read-back. */
  lemma ReadRegisterSteps(s: Script, slave: int, register: int, length: int)
    requires ReadRegisterIo(s, slave, register, length).result.Success?
    ensures PollIdleIo(s).result.Success? && 0 <= register < 256
    ensures var idle := PollIdleIo(s);
            var ack := WriteAckIo(idle.rest, slave, [ToByte(register)]);
            && ack.result.Success?
            && ReadRegisterIo(s, slave, register, length) == After(idle.sent + ack.sent, ReadBackIo(ack.rest, slave, length))
  {
    var reg := ByteOf(register);
    ByteOfInt(reg.value, register);
  }

  /**
   * A successful `write_register` sends `[register] + data` in one I2C write after the poll,
   * then one status read; a value that is not a byte fails after the poll with nothing
   * written.
   */
  lemma WriteRegisterSingleWrite(s: Script, slave: int, register: int, data: seq<int>)
    ensures var idle := PollIdleIo(s);
            var io := WriteRegisterIo(s, slave, register, data);
            io.result.Success? ==>
              && idle.result.Success?
              && BytesOf([register] + data).Success?
              && var b := BytesOf([register] + data).value;
                 && b[0] as int == register && Values(b[1..]) == data
                 && io.sent == idle.sent + [WriteApdu(slave, b), StatusQuery]
    ensures PollIdleIo(s).result.Success? && BytesOf([register] + data).Failure? ==>
              WriteRegisterIo(s, slave, register, data) == Io(Failure(ByteOutOfRange), PollIdleIo(s).sent, PollIdleIo(s).rest)
  {
    var b := BytesOf([register] + data);
    if b.Success? {
      var v := b.value;
      forall i | 0 <= i < |data|
        ensures Values(v[1..])[i] == data[i]
      {
        assert v[1..][i] == v[i + 1];
        assert ([register] + data)[i + 1] == data[i];
      }
    }
  }

  /** A successful `general_reset` writes the single byte 0x06 to slave address 0x00. */
  lemma GeneralResetWritesResetCommand(s: Script)
    ensures var idle := PollIdleIo(s);
            var io := GeneralResetIo(s);
            io.result.Success? ==>
              idle.result.Success? && io.sent == idle.sent + [WriteApdu(0x00, [0x06]), StatusQuery]
  {
  }

  // The driver object

  /** A peripheral at `address` behind the NTAG 5 I2C master. */
  class I2cDevice {
    const chip: Ntag5Link
    const address: int

    constructor (chip: Ntag5Link, address: int)
      ensures this.chip == chip && this.address == address
    {
      this.chip := chip;
      this.address := address;
    }

    /** The busy poll as a loop over `check_i2c_busy`. */
    method WaitIdle() returns (r: Result<()>)
      modifies chip.reader
      ensures chip.reader.Performed(PollIdleIo(old(chip.reader.script)), r)
    {
      var reader := chip.reader;
      ghost var s0, log0 := reader.script, reader.sent;
      ghost var goal := PollIdleIo(s0);
      ghost var log := CheckI2cBusyIo(s0).sent;
      var busy := chip.CheckI2cBusy();
      PollUnfold(s0);
      while busy.Success? && busy.value
        invariant reader.sent == log0 + log
        invariant goal == After(log, PollFrom(busy, reader.script))
        decreases |reader.script| + (if busy.Success? && busy.value then 1 else 0)
      {
        ghost var t, log1 := reader.script, reader.sent;
        ghost var step := CheckI2cBusyIo(t).sent;
        busy := chip.CheckI2cBusy();
        PollUnfold(t);
        AfterAssociative(log, step, PollFrom(busy, reader.script));
        LogTwoSteps(log0, log1, reader.sent, log, step, log + step);
        log := log + step;
      }
      LogOneStep(log0, reader.sent, log, goal.sent);
      if busy.Failure? {
        return Failure(busy.error);
      }
      r := Success(());
    }

    method WriteAck(slave: int, data: seq<bv8>) returns (r: Result<()>)
      modifies chip.reader
      ensures chip.reader.Performed(WriteAckIo(old(chip.reader.script), slave, data), r)
    {
      var reader := chip.reader;
      ghost var s0, log0 := reader.script, reader.sent;
      ghost var write := WriteI2cIo(s0, slave, data, true);
      var written := chip.WriteI2c(slave, data, true);
      if written.Failure? {
        return Failure(written.error);
      }
      ghost var log1 := reader.sent;
      ghost var ack := CheckI2cWriteResultIo(write.rest);
      var ok := chip.CheckI2cWriteResult();
      LogTwoSteps(log0, log1, reader.sent, write.sent, ack.sent, WriteAckIo(s0, slave, data).sent);
      if ok.Failure? {
        return Failure(ok.error);
      }
      if !ok.value {
        return Failure(NotAcknowledged);
      }
      r := Success(());
    }

    method ReadBack(length: int) returns (r: Result<seq<bv8>>)
      modifies chip.reader
      ensures chip.reader.Performed(ReadBackIo(old(chip.reader.script), address, length), r)
    {
      var reader := chip.reader;
      ghost var s0, log0 := reader.script, reader.sent;
      ghost var read := ReadI2cIo(s0, address, length, true);
      var started := chip.ReadI2c(address, length, true);
      if started.Failure? {
        return Failure(started.error);
      }
      ghost var log1 := reader.sent;
      ghost var sram := ReadSramIo(read.rest, 0x00, Pages(length));
      var data := chip.ReadSram(0x00, Pages(length));
      LogTwoSteps(log0, log1, reader.sent, read.sent, sram.sent, ReadBackIo(s0, address, length).sent);
      if data.Failure? {
        return Failure(data.error);
      }
      r := Success(Slice(data.value, 0, length));
    }

    method ReadRegister(register: int, length: int) returns (r: Result<seq<bv8>>)
      modifies chip.reader
      ensures chip.reader.Performed(ReadRegisterIo(old(chip.reader.script), address, register, length), r)
    {
      var reader := chip.reader;
      ghost var s0, log0 := reader.script, reader.sent;
      ghost var whole := ReadRegisterIo(s0, address, register, length).sent;
      ghost var poll := PollIdleIo(s0);
      var idle := WaitIdle();
      if idle.Failure? {
        return Failure(idle.error);
      }
      var reg := ByteOf(register);
      if reg.Failure? {
        return Failure(reg.error);
      }
      ghost var log1 := reader.sent;
      ghost var write := WriteAckIo(poll.rest, address, [reg.value]);
      var ack := WriteAck(address, [reg.value]);
      if ack.Failure? {
        LogTwoSteps(log0, log1, reader.sent, poll.sent, write.sent, whole);
        return Failure(ack.error);
      }
      ghost var log2 := reader.sent;
      LogTwoSteps(log0, log1, log2, poll.sent, write.sent, poll.sent + write.sent);
      ghost var back := ReadBackIo(write.rest, address, length);
      r := ReadBack(length);
      LogTwoSteps(log0, log2, reader.sent, poll.sent + write.sent, back.sent, whole);
    }

    method WriteRegister(register: int, data: seq<int>) returns (r: Result<()>)
      modifies chip.reader
      ensures chip.reader.Performed(WriteRegisterIo(old(chip.reader.script), address, register, data), r)
    {
      var reader := chip.reader;
      ghost var s0, log0 := reader.script, reader.sent;
      ghost var poll := PollIdleIo(s0);
      var idle := WaitIdle();
      if idle.Failure? {
        return Failure(idle.error);
      }
      var bytes := BytesOf([register] + data);
      if bytes.Failure? {
        return Failure(bytes.error);
      }
      ghost var log1 := reader.sent;
      ghost var write := WriteAckIo(poll.rest, address, bytes.value);
      r := WriteAck(address, bytes.value);
      LogTwoSteps(log0, log1, reader.sent, poll.sent, write.sent, WriteRegisterIo(s0, address, register, data).sent);
    }

    method GeneralReset() returns (r: Result<()>)
      modifies chip.reader
      ensures chip.reader.Performed(GeneralResetIo(old(chip.reader.script)), r)
    {
      var reader := chip.reader;
      ghost var s0, log0 := reader.script, reader.sent;
      ghost var poll := PollIdleIo(s0);
      var idle := WaitIdle();
      if idle.Failure? {
        return Failure(idle.error);
      }
      ghost var log1 := reader.sent;
      ghost var write := WriteAckIo(poll.rest, GeneralCallAddress, [ToByte(GeneralCallReset)]);
      r := WriteAck(GeneralCallAddress, [ToByte(GeneralCallReset)]);
      LogTwoSteps(log0, log1, reader.sent, poll.sent, write.sent, GeneralResetIo(s0).sent);
    }
  }
}

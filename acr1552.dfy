/**
 * The ACR1552 reader bridge: PC/SC Part 3 supplemental "transparent session" pseudo-APDUs,
 * the layered checks applied to every answer, and the ISO/IEC 15693 exchange built on them.
 *
 * The PC/SC link is modelled as a scripted responder.  An `Acr1552` object holds the replies
 * the reader will give, in order (`script`), and a ghost log of every APDU handed to PC/SC
 * (`sent`).  Each transmit consumes one reply; when the script is exhausted the transmit
 * fails with `NoReply`.  A reply carries the BER-TLV response already parsed into a map from
 * tag to value.
 *
 * Every operation that talks to the reader has a pure specification `XxxIo(script, ...)`
 * returning an `Io`: the result, the APDUs sent and the replies left over.  The methods are
 * proved to perform exactly that (`Performed`), and the protocol properties are lemmas about
 * the `Io` functions.
 */
module Reader {
  import opened Errors
  import opened Bytes

  // Wrapping APDU fields
  const ClaPseudo: bv8 := 0xFF
  const InsTransparent: bv8 := 0xC2

  // Function byte of the transparent-session pseudo-APDU
  const FuncManage: bv8 := 0x00
  const FuncExchange: bv8 := 0x01
  const FuncSwitchProtocol: bv8 := 0x02

  const BeginTransparentSession: seq<bv8> := [0x81, 0x00]
  const EndTransparentSession: seq<bv8> := [0x82, 0x00]
  const SwitchToIso15693Layer3: seq<bv8> := [0x8F, 0x02, 0x02, 0x03]

  // TLV tags of the pseudo-APDU response
  const TagError: int := 0xC0
  const TagRespStatus: int := 0x96
  const TagRespFraming: int := 0x92
  const TagRespData: int := 0x97

  /** A parsed BER-TLV response: tag to value. */
  type TlvMap = map<int, seq<bv8>>

  /** One answer of the reader: the response data (already parsed) and the status word. */
  datatype PcscReply = PcscReply(data: TlvMap, sw1: bv8, sw2: bv8)

  /** The answers the reader is going to give, in order. */
  type Script = seq<PcscReply>

  /** What an operation on the link does: its outcome, the APDUs it sent, the replies left. */
  datatype Io<T> = Io(result: Result<T>, sent: seq<seq<bv8>>, rest: Script)

  /** Propagates the failure of a step, keeping what that step sent. */
  function Fail<T, U>(io: Io<T>): (r: Io<U>)
    requires io.result.Failure?
    ensures r.result == Failure(io.result.error) && r.sent == io.sent && r.rest == io.rest
  {
    Io(Failure(io.result.error), io.sent, io.rest)
  }

  /** The outcome of `io`, preceded by the APDUs `before` sent by earlier steps. */
  function After<T>(before: seq<seq<bv8>>, io: Io<T>): (r: Io<T>)
    ensures r.result == io.result && r.sent == before + io.sent && r.rest == io.rest
  {
    Io(io.result, before + io.sent, io.rest)
  }

  /** Two outcomes prefixed in turn are one outcome prefixed by both logs. */
  lemma AfterAssociative<T>(a: seq<seq<bv8>>, b: seq<seq<bv8>>, io: Io<T>)
    ensures After(a, After(b, io)) == After(a + b, io)
  {
  }

  /** A log extended by two steps in turn holds, past its old contents, both steps' APDUs. */
  lemma LogTwoSteps(log0: seq<seq<bv8>>, log1: seq<seq<bv8>>, log2: seq<seq<bv8>>,
                    first: seq<seq<bv8>>, second: seq<seq<bv8>>, both: seq<seq<bv8>>)
    requires log1 == log0 + first && log2 == log1 + second && both == first + second
    ensures log2 == log0 + both
  {
  }

  /** A log extended by one step holds, past its old contents, that step's APDUs. */
  lemma LogOneStep(log0: seq<seq<bv8>>, log1: seq<seq<bv8>>, step: seq<seq<bv8>>, total: seq<seq<bv8>>)
    requires log1 == log0 + step && total == step
    ensures log1 == log0 + total
  {
  }

  // ---------------------------------------------------------------------------------------
  // Pseudo-APDU framing

  /** `[CLA, INS, P1 = 0, P2 = function, Lc] ++ data ++ [Le = 0]` */
  function PseudoApdu(function_: bv8, data: seq<bv8>): (apdu: seq<bv8>)
    requires |data| < 256
    ensures |apdu| == |data| + 6
    ensures apdu[..5] == [ClaPseudo, InsTransparent, 0x00, function_, ToByte(|data|)]
    ensures apdu[5..|apdu| - 1] == data && apdu[|apdu| - 1] == 0x00
  {
    [ClaPseudo, InsTransparent, 0x00, function_, ToByte(|data|)] + data + [0x00]
  }

  /** The reader-side reading of a pseudo-APDU: its function byte and its data field. */
  function ParsePseudoApdu(apdu: seq<bv8>): (r: Option<(bv8, seq<bv8>)>)
    ensures r.Some? ==> |apdu| >= 6 && |r.value.1| == |apdu| - 6
  {
    if |apdu| >= 6 && apdu[0] == ClaPseudo && apdu[1] == InsTransparent && apdu[2] == 0x00
       && apdu[4] as int == |apdu| - 6 && apdu[|apdu| - 1] == 0x00
    then Some((apdu[3], apdu[5..|apdu| - 1]))
    else None
  }

  lemma ParseBuiltPseudoApdu(function_: bv8, data: seq<bv8>)
    requires |data| < 256
    ensures ParsePseudoApdu(PseudoApdu(function_, data)) == Some((function_, data))
  {
  }

  lemma BuildParsedPseudoApdu(apdu: seq<bv8>)
    requires ParsePseudoApdu(apdu).Some?
    ensures var (f, data) := ParsePseudoApdu(apdu).value; |data| < 256 && PseudoApdu(f, data) == apdu
  {
    var (f, data) := ParsePseudoApdu(apdu).value;
    ByteOfInt(apdu[4], |data|);
    assert apdu[..5] == [ClaPseudo, InsTransparent, 0x00, f, ToByte(|data|)];
    assert apdu == apdu[..5] + data + [0x00];
  }

  // ---------------------------------------------------------------------------------------
  // The pseudo-APDU error object (tag C0: bad-data byte, SW1, SW2)

  /** The status word of each named reader-level failure. */
  function StatusWordOf(reason: PseudoReason): (bv8, bv8) {
    match reason
    case InformationUnavailable => (0x62, 0x82)
    case NoInformation => (0x63, 0x00)
    case FailureInOtherDataObject => (0x63, 0x01)
    case UnsupportedDataObject => (0x6A, 0x81)
    case UnexpectedLength => (0x67, 0x00)
    case UnexpectedValue => (0x6A, 0x80)
    case NoResponseFromIfd => (0x64, 0x00)
    case NoResponseFromIcc => (0x64, 0x01)
    case DataObjectFailed => (0x6F, 0x00)
  }

  /** The message table lookup: which named failure a status word denotes, if any. */
  function PseudoReasonOf(sw1: bv8, sw2: bv8): Option<PseudoReason> {
    match (sw1, sw2)
    case (0x62, 0x82) => Some(InformationUnavailable)
    case (0x63, 0x00) => Some(NoInformation)
    case (0x63, 0x01) => Some(FailureInOtherDataObject)
    case (0x6A, 0x81) => Some(UnsupportedDataObject)
    case (0x67, 0x00) => Some(UnexpectedLength)
    case (0x6A, 0x80) => Some(UnexpectedValue)
    case (0x64, 0x00) => Some(NoResponseFromIfd)
    case (0x64, 0x01) => Some(NoResponseFromIcc)
    case (0x6F, 0x00) => Some(DataObjectFailed)
    case _ => None
  }

  lemma PseudoReasonTableInverse(reason: PseudoReason, sw1: bv8, sw2: bv8)
    ensures PseudoReasonOf(sw1, sw2) == Some(reason) <==> StatusWordOf(reason) == (sw1, sw2)
  {
  }

  lemma SuccessIsNotAPseudoReason()
    ensures PseudoReasonOf(0x90, 0x00) == None
  {
  }

  /** `_check_pseudo_error`: the error object must be exactly `00 90 00`. */
  function CheckPseudoError(error: seq<bv8>): (r: Result<()>)
    ensures r.Success? <==> error == [0x00, 0x90, 0x00]
    ensures |error| != 3 ==> r == Failure(UnpackMismatch)
    ensures |error| == 3 && r.Failure? && PseudoReasonOf(error[1], error[2]).Some? ==>
      r == Failure(PseudoFailure(PseudoReasonOf(error[1], error[2]).value, error[0]))
    ensures |error| == 3 && r.Failure? && PseudoReasonOf(error[1], error[2]).None? ==>
      r == Failure(UnknownPseudoFailure(error))
  {
    if |error| != 3 then Failure(UnpackMismatch)
    else if error[0] == 0x00 && error[1] == 0x90 && error[2] == 0x00 then Success(())
    else match PseudoReasonOf(error[1], error[2])
      case Some(reason) => Failure(PseudoFailure(reason, error[0]))
      case None => Failure(UnknownPseudoFailure(error))
  }

  // ---------------------------------------------------------------------------------------
  // Response status, framing and the inner ISO/IEC 15693 error

  /** `_check_transmit_error`: the first set cause wins, CRC, collision, parity, framing, RFU. */
  function CheckTransmitError(status: bv8): (r: Result<()>)
    ensures r.Success? <==> status == 0
    ensures status & 0x01 != 0 ==> r == Failure(CrcCheckFailed)
    ensures status & 0x01 == 0 && status & 0x02 != 0 ==> r == Failure(CollisionDetected)
    ensures status & 0x03 == 0 && status & 0x04 != 0 ==> r == Failure(ParityErrorDetected)
    ensures status & 0x07 == 0 && status & 0x08 != 0 ==> r == Failure(FramingErrorDetected)
    ensures status & 0x0F == 0 && status != 0 ==> r == Failure(RfuStatus(status))
  {
    if status & 0x01 != 0 then Failure(CrcCheckFailed)
    else if status & 0x02 != 0 then Failure(CollisionDetected)
    else if status & 0x04 != 0 then Failure(ParityErrorDetected)
    else if status & 0x08 != 0 then Failure(FramingErrorDetected)
    else if status & 0xF0 != 0 then Failure(RfuStatus(status))
    else Success(())
  }

  /** `_check_transmit_framing`: bits 2..0 count the valid bits of a partial last byte. */
  function CheckFraming(framing: bv8): (r: Result<()>)
    ensures r.Success? <==> framing & 0x07 == 0
    ensures r.Failure? ==> r.error == InvalidBits(framing)
  {
    if framing & 0x07 != 0 then Failure(InvalidBits(framing)) else Success(())
  }

  /** The ISO/IEC 15693-3 error code of each named response error. */
  function VicinityCode(reason: VicinityReason): bv8 {
    match reason
    case CommandNotSupported => 0x01
    case CommandNotRecognized => 0x02
    case OptionNotSupported => 0x03
    case UnknownVicinityError => 0x0F
    case BlockUnavailable => 0x10
    case BlockAlreadyLocked => 0x11
    case BlockLocked => 0x12
    case ProgrammingFailed => 0x13
    case LockingFailed => 0x14
  }

  /** The error-code table lookup. */
  function VicinityReasonOf(code: bv8): Option<VicinityReason> {
    match code
    case 0x01 => Some(CommandNotSupported)
    case 0x02 => Some(CommandNotRecognized)
    case 0x03 => Some(OptionNotSupported)
    case 0x0F => Some(UnknownVicinityError)
    case 0x10 => Some(BlockUnavailable)
    case 0x11 => Some(BlockAlreadyLocked)
    case 0x12 => Some(BlockLocked)
    case 0x13 => Some(ProgrammingFailed)
    case 0x14 => Some(LockingFailed)
    case _ => None
  }

  lemma VicinityTableInverse(reason: VicinityReason, code: bv8)
    ensures VicinityReasonOf(code) == Some(reason) <==> VicinityCode(reason) == code
  {
  }

  /**
   * `_check_iso15693_error` as written: outside the custom range the code is looked up
   * through a name that is never bound, so Python raises a NameError there.
   */
  function CheckIsoErrorAsWritten(data: seq<bv8>): (r: Result<()>)
    ensures r.Success? <==> |data| > 0 && data[0] & 0x01 == 0
    ensures r.Failure? && |data| >= 2 && !(0xA0 <= data[1] <= 0xDF) ==> r == Failure(UndefinedName("code"))
  {
    if |data| == 0 then Failure(IndexOutOfRange)
    else if data[0] & 0x01 == 0 then Success(())
    else if |data| < 2 then Failure(IndexOutOfRange)
    else if 0xA0 <= data[1] <= 0xDF then Failure(CustomCommandError(data[1]))
    else Failure(UndefinedName("code"))
  }

  /**
   * `_check_iso15693_error` as intended: the error flag (bit 0 of the flags byte) set means
   * the second byte is an error code, custom (A0..DF), named in the table, or RFU.
   */
  function CheckIsoError(data: seq<bv8>): (r: Result<()>)
    ensures r.Success? <==> |data| > 0 && data[0] & 0x01 == 0
    ensures r.Failure? && |data| < 2 ==> r == Failure(IndexOutOfRange)
    ensures r.Failure? && |data| >= 2 && 0xA0 <= data[1] <= 0xDF ==> r == Failure(CustomCommandError(data[1]))
    ensures r.Failure? && |data| >= 2 && VicinityReasonOf(data[1]).Some? ==>
      r == Failure(VicinityFailure(VicinityReasonOf(data[1]).value))
    ensures r.Failure? && |data| >= 2 && !(0xA0 <= data[1] <= 0xDF) && VicinityReasonOf(data[1]).None? ==>
      r == Failure(RfuVicinityError(data[1]))
  {
    if |data| == 0 then Failure(IndexOutOfRange)
    else if data[0] & 0x01 == 0 then Success(())
    else if |data| < 2 then Failure(IndexOutOfRange)
    else if 0xA0 <= data[1] <= 0xDF then Failure(CustomCommandError(data[1]))
    else match VicinityReasonOf(data[1])
      case Some(reason) => Failure(VicinityFailure(reason))
      case None => Failure(RfuVicinityError(data[1]))
  }

  /** The two readings differ exactly where the written one reaches the unbound name. */
  lemma CheckIsoErrorAsWrittenDiffers(data: seq<bv8>)
    ensures CheckIsoErrorAsWritten(data) != CheckIsoError(data) <==>
      CheckIsoErrorAsWritten(data) == Failure(UndefinedName("code"))
    ensures CheckIsoErrorAsWritten(data).Failure? ==> CheckIsoErrorAsWritten(data).error != VicinityFailure(BlockLocked)
  {
  }

  /** A "block locked" answer: the written check raises NameError instead of the table message. */
  lemma BlockLockedAnswerAsWritten()
    ensures CheckIsoErrorAsWritten([0x01, 0x12]) == Failure(UndefinedName("code"))
    ensures CheckIsoError([0x01, 0x12]) == Failure(VicinityFailure(BlockLocked))
  {
  }

  // ---------------------------------------------------------------------------------------
  // The Transparent Exchange data object

  /** BER-TLV definite length octets for a value shorter than 256 bytes. */
  function TlvLength(n: nat): (r: seq<bv8>)
    requires n < 256
    ensures n < 128 ==> |r| == 1
    ensures n >= 128 ==> |r| == 2
  {
    if n < 128 then [ToByte(n)] else [0x81, ToByte(n)]
  }

  /** Reads BER-TLV length octets back (short form and the one-byte long form). */
  function TlvLengthValue(octets: seq<bv8>): Option<nat> {
    if |octets| == 1 && octets[0] < 0x80 then Some(octets[0] as nat)
    else if |octets| == 2 && octets[0] == 0x81 then Some(octets[1] as nat)
    else None
  }

  lemma TlvLengthRoundTrip(n: nat)
    requires n < 256
    ensures TlvLengthValue(TlvLength(n)) == Some(n)
  {
  }

  /** The timeout TLV: tag 5F46, four bytes, 1000000 microseconds big-endian. */
  const TimeoutTlv: seq<bv8> := [0x5F, 0x46, 0x04, 0x00, 0x0F, 0x42, 0x40]
  /** The frame waiting time integer TLV: tag FF6E, prefix 03 01 and FWTI 15. */
  const FwtiTlv: seq<bv8> := [0xFF, 0x6E, 0x03, 0x03, 0x01, 0x0F]

  /** The data field of a Transparent Exchange: timeout, FWTI and the frame under tag 95. */
  function ExchangeData(frame: seq<bv8>): (d: seq<bv8>)
    requires |frame| < 256
    ensures d == TimeoutTlv + FwtiTlv + [0x95] + TlvLength(|frame|) + frame
    ensures |d| == |frame| + (if |frame| < 128 then 15 else 16)
  {
    TimeoutTlv + FwtiTlv + [0x95] + TlvLength(|frame|) + frame
  }

  lemma TimeoutIsOneSecond()
    ensures TimeoutTlv[3] as int * 0x1000000 + TimeoutTlv[4] as int * 0x10000
      + TimeoutTlv[5] as int * 0x100 + TimeoutTlv[6] as int == 1000000
  {
  }

  /** The largest frame whose exchange still fits the one-byte Lc of the pseudo-APDU. */
  const MaxFrame: nat := 239

  /** The APDU that carries `frame` to the tag. */
  function ExchangeApdu(frame: seq<bv8>): seq<bv8>
    requires |frame| <= MaxFrame
  {
    PseudoApdu(FuncExchange, ExchangeData(frame))
  }

  /** The reader parses the exchange APDU back into the exchange function and its frame. */
  lemma ExchangeApduParses(frame: seq<bv8>)
    requires |frame| <= MaxFrame
    ensures ParsePseudoApdu(ExchangeApdu(frame)) == Some((FuncExchange, ExchangeData(frame)))
  {
    ParseBuiltPseudoApdu(FuncExchange, ExchangeData(frame));
  }

  /** The value under `tag`, a KeyError when it is absent. */
  function Lookup(tlv: TlvMap, tag: int): (r: Result<seq<bv8>>)
    ensures r.Success? <==> tag in tlv
    ensures r.Success? ==> r.value == tlv[tag]
    ensures r.Failure? ==> r.error == MissingTag(tag)
  {
    if tag in tlv then Success(tlv[tag]) else Failure(MissingTag(tag))
  }

  /** `tlv[tag][0]` */
  function FirstByte(tlv: TlvMap, tag: int): (r: Result<bv8>)
    ensures r.Success? <==> tag in tlv && |tlv[tag]| > 0
    ensures r.Success? ==> r.value == tlv[tag][0]
  {
    var value :- Lookup(tlv, tag);
    if |value| == 0 then Failure(IndexOutOfRange) else Success(value[0])
  }

  /**
   * The checks `transmit_iso15693` applies to the parsed response, in the source's order:
   * status, framing, inner error flag; the answer is the response data without its flags byte.
   */
  function ExchangeResult(tlv: TlvMap): (r: Result<seq<bv8>>)
    ensures r.Success? <==>
      FirstByte(tlv, TagRespStatus) == Success(0)
      && FirstByte(tlv, TagRespFraming).Success? && tlv[TagRespFraming][0] & 0x07 == 0
      && TagRespData in tlv && |tlv[TagRespData]| > 0 && tlv[TagRespData][0] & 0x01 == 0
    ensures r.Success? ==> r.value == tlv[TagRespData][1..]
  {
    var status :- FirstByte(tlv, TagRespStatus);
    var statusOk :- CheckTransmitError(status);
    var framing :- FirstByte(tlv, TagRespFraming);
    var framingOk :- CheckFraming(framing);
    var data :- Lookup(tlv, TagRespData);
    var flagsOk :- CheckIsoError(data);
    Success(data[1..])
  }

  /** A CRC error is reported whatever the framing and data objects hold. */
  lemma CrcErrorReportedFirst(tlv: TlvMap)
    requires TagRespStatus in tlv && |tlv[TagRespStatus]| > 0 && tlv[TagRespStatus][0] & 0x01 != 0
    ensures ExchangeResult(tlv) == Failure(CrcCheckFailed)
  {
  }

  /** A bad framing byte is only reported when the status byte is clean. */
  lemma FramingCheckedAfterStatus(tlv: TlvMap)
    requires ExchangeResult(tlv).Failure? && ExchangeResult(tlv).error.InvalidBits?
    ensures FirstByte(tlv, TagRespStatus) == Success(0)
  {
  }

  /** The inner error flag is only looked at once status and framing are clean. */
  lemma IsoErrorCheckedLast(tlv: TlvMap)
    requires ExchangeResult(tlv).Failure?
    requires ExchangeResult(tlv).error.VicinityFailure? || ExchangeResult(tlv).error.CustomCommandError?
    ensures FirstByte(tlv, TagRespStatus) == Success(0)
    ensures FirstByte(tlv, TagRespFraming).Success? && tlv[TagRespFraming][0] & 0x07 == 0
  {
  }

  /**
   * The same checks with the inner error flag checked as `_check_iso15693_error` is written,
   * so that an error code outside A0..DF raises NameError.
   */
  function ExchangeResultAsWritten(tlv: TlvMap): Result<seq<bv8>> {
    var status :- FirstByte(tlv, TagRespStatus);
    var statusOk :- CheckTransmitError(status);
    var framing :- FirstByte(tlv, TagRespFraming);
    var framingOk :- CheckFraming(framing);
    var data :- Lookup(tlv, TagRespData);
    var flagsOk :- CheckIsoErrorAsWritten(data);
    Success(data[1..])
  }

  /**
   * The exchange as written and as intended succeed on the same responses and agree on every
   * response except those whose error code makes the written check raise NameError.
   */
  lemma ExchangeResultAsWrittenDiffers(tlv: TlvMap)
    ensures ExchangeResultAsWritten(tlv).Success? <==> ExchangeResult(tlv).Success?
    ensures ExchangeResultAsWritten(tlv) != ExchangeResult(tlv) <==>
      ExchangeResultAsWritten(tlv) == Failure(UndefinedName("code"))
  {
    if TagRespData in tlv {
      CheckIsoErrorAsWrittenDiffers(tlv[TagRespData]);
    }
  }

  /** A "block locked" answer to an exchange raises NameError as written. */
  lemma BlockLockedExchangeAsWritten(tlv: TlvMap)
    requires tlv == map[TagRespStatus := [0], TagRespFraming := [0], TagRespData := [0x01, 0x12]]
    ensures ExchangeResultAsWritten(tlv) == Failure(UndefinedName("code"))
    ensures ExchangeResult(tlv) == Failure(VicinityFailure(BlockLocked))
  {
    BlockLockedAnswerAsWritten();
  }

  // ---------------------------------------------------------------------------------------
  // Specifications of the operations on the link

  /** `transmit_pcsc`: one APDU out, one reply in; a status word other than 90 00 fails. */
  function PcscIo(s: Script, apdu: seq<bv8>): (io: Io<TlvMap>)
    ensures io.sent == [apdu]
    ensures io.result.Success? <==> s != [] && s[0].sw1 == 0x90 && s[0].sw2 == 0x00
    ensures io.result.Success? ==> io.result.value == s[0].data
    ensures s != [] ==> io.rest == s[1..]
    ensures s == [] ==> io.rest == [] && io.result == Failure(NoReply)
  {
    if s == [] then Io(Failure(NoReply), [apdu], [])
    else if s[0].sw1 != 0x90 || s[0].sw2 != 0x00 then
      Io(Failure(UnexpectedStatusWord(s[0].sw1, s[0].sw2)), [apdu], s[1..])
    else Io(Success(s[0].data), [apdu], s[1..])
  }

  /** `_transmit_pseudo`: rejects an oversized data field before sending anything. */
  function PseudoIo(s: Script, function_: bv8, data: seq<bv8>): (io: Io<TlvMap>)
    ensures |data| > 255 ==> io == Io(Failure(ByteOutOfRange), [], s)
    ensures |data| <= 255 ==> io.sent == [PseudoApdu(function_, data)]
    ensures io.result.Success? ==>
              s != [] && io.rest == s[1..] && io.result.value == s[0].data
              && Lookup(s[0].data, TagError).Success? && CheckPseudoError(s[0].data[TagError]).Success?
    ensures |io.rest| <= |s|
  {
    if |data| > 255 then Io(Failure(ByteOutOfRange), [], s)
    else
      var p := PcscIo(s, PseudoApdu(function_, data));
      if p.result.Failure? then p
      else Io(
        (var error :- Lookup(p.result.value, TagError);
         var ok :- CheckPseudoError(error);
         Success(p.result.value)),
        p.sent, p.rest)
  }

  /** `transmit_iso15693`: exchange a frame with the tag and return its answer without flags. */
  function ExchangeIo(s: Script, frame: seq<bv8>): (io: Io<seq<bv8>>)
    ensures |frame| > MaxFrame ==> io == Io(Failure(ByteOutOfRange), [], s)
    ensures |frame| <= MaxFrame ==> io.sent == [ExchangeApdu(frame)]
    ensures io.result.Success? ==>
              s != [] && io.rest == s[1..] && io.result == ExchangeResult(s[0].data)
    ensures |io.rest| <= |s|
  {
    if |frame| > MaxFrame then Io(Failure(ByteOutOfRange), [], s)
    else
      var p := PseudoIo(s, FuncExchange, ExchangeData(frame));
      if p.result.Failure? then Fail(p) else Io(ExchangeResult(p.result.value), p.sent, p.rest)
  }

  /** The exchange answers with the response data exactly when every layer reports success. */
  lemma ExchangeSucceeds(s: Script, frame: seq<bv8>)
    requires |frame| <= MaxFrame && s != [] && s[0].sw1 == 0x90 && s[0].sw2 == 0x00
    requires TagError in s[0].data && s[0].data[TagError] == [0x00, 0x90, 0x00]
    ensures ExchangeIo(s, frame) == Io(ExchangeResult(s[0].data), [ExchangeApdu(frame)], s[1..])
  {
  }

  /** `connect` (after the card is reached): begin the session, then switch protocol. */
  function ConnectIo(s: Script): (io: Io<()>)
    ensures |io.sent| >= 1 && io.sent[0] == PseudoApdu(FuncManage, BeginTransparentSession)
    ensures io.result.Success? ==>
      io.sent == [PseudoApdu(FuncManage, BeginTransparentSession), PseudoApdu(FuncSwitchProtocol, SwitchToIso15693Layer3)]
  {
    var begin := PseudoIo(s, FuncManage, BeginTransparentSession);
    if begin.result.Failure? then Fail(begin)
    else
      var switch := PseudoIo(begin.rest, FuncSwitchProtocol, SwitchToIso15693Layer3);
      if switch.result.Failure? then After(begin.sent, Fail(switch))
      else Io(Success(()), begin.sent + switch.sent, switch.rest)
  }

  /** A failed session start stops `connect` before the protocol switch. */
  lemma ConnectStopsAfterFailedBegin(s: Script)
    requires PseudoIo(s, FuncManage, BeginTransparentSession).result.Failure?
    ensures ConnectIo(s).sent == [PseudoApdu(FuncManage, BeginTransparentSession)]
    ensures ConnectIo(s).result.Failure?
  {
  }

  /** `disconnect`: end the transparent session. */
  function DisconnectIo(s: Script): (io: Io<()>)
    ensures io.sent == [PseudoApdu(FuncManage, EndTransparentSession)]
    ensures io.result.Success? <==> PseudoIo(s, FuncManage, EndTransparentSession).result.Success?
  {
    var end := PseudoIo(s, FuncManage, EndTransparentSession);
    if end.result.Failure? then Fail(end) else Io(Success(()), end.sent, end.rest)
  }

  // ---------------------------------------------------------------------------------------
  // The reader object

  class Acr1552 {
    /** Every APDU handed to PC/SC so far. */
    ghost var sent: seq<seq<bv8>>
    /** The replies the reader will still give. */
    var script: Script

    constructor (replies: Script)
      ensures sent == [] && script == replies
    {
      sent := [];
      script := replies;
    }

    /** This call did what `io` specifies: same result, same APDUs, same replies consumed. */
    twostate predicate Performed<T>(new io: Io<T>, new r: Result<T>)
      reads this
    {
      r == io.result && sent == old(sent) + io.sent && script == io.rest
    }

    method TransmitPcsc(apdu: seq<bv8>) returns (r: Result<TlvMap>)
      modifies this
      ensures Performed(PcscIo(old(script), apdu), r)
    {
      sent := sent + [apdu];
      if script == [] {
        r := Failure(NoReply);
        return;
      }
      var reply := script[0];
      script := script[1..];
      if reply.sw1 != 0x90 || reply.sw2 != 0x00 {
        r := Failure(UnexpectedStatusWord(reply.sw1, reply.sw2));
      } else {
        r := Success(reply.data);
      }
    }

    method TransmitPseudo(function_: bv8, data: seq<bv8>) returns (r: Result<TlvMap>)
      modifies this
      ensures Performed(PseudoIo(old(script), function_, data), r)
    {
      if |data| > 255 {
        return Failure(ByteOutOfRange);
      }
      var res := TransmitPcsc(PseudoApdu(function_, data));
      if res.Failure? {
        return res;
      }
      var tlv := res.value;
      if TagError !in tlv {
        return Failure(MissingTag(TagError));
      }
      var check := CheckPseudoError(tlv[TagError]);
      if check.Failure? {
        return Failure(check.error);
      }
      r := Success(tlv);
    }

    method Connect() returns (r: Result<()>)
      modifies this
      ensures Performed(ConnectIo(old(script)), r)
    {
      var begin := TransmitPseudo(FuncManage, BeginTransparentSession);
      if begin.Failure? {
        return Failure(begin.error);
      }
      var switch := TransmitPseudo(FuncSwitchProtocol, SwitchToIso15693Layer3);
      if switch.Failure? {
        return Failure(switch.error);
      }
      r := Success(());
    }

    method Disconnect() returns (r: Result<()>)
      modifies this
      ensures Performed(DisconnectIo(old(script)), r)
    {
      var end := TransmitPseudo(FuncManage, EndTransparentSession);
      if end.Failure? {
        return Failure(end.error);
      }
      r := Success(());
    }

    method TransmitIso15693(frame: seq<bv8>) returns (r: Result<seq<bv8>>)
      modifies this
      ensures Performed(ExchangeIo(old(script), frame), r)
    {
      if |frame| > MaxFrame {
        return Failure(ByteOutOfRange);
      }
      var res := TransmitPseudo(FuncExchange, ExchangeData(frame));
      if res.Failure? {
        return Failure(res.error);
      }
      var tlv := res.value;
      var status := FirstByte(tlv, TagRespStatus);
      if status.Failure? {
        return Failure(status.error);
      }
      var statusOk := CheckTransmitError(status.value);
      if statusOk.Failure? {
        return Failure(statusOk.error);
      }
      var framing := FirstByte(tlv, TagRespFraming);
      if framing.Failure? {
        return Failure(framing.error);
      }
      var framingOk := CheckFraming(framing.value);
      if framingOk.Failure? {
        return Failure(framingOk.error);
      }
      if TagRespData !in tlv {
        return Failure(MissingTag(TagRespData));
      }
      var data := tlv[TagRespData];
      var flagsOk := CheckIsoError(data);
      if flagsOk.Failure? {
        return Failure(flagsOk.error);
      }
      r := Success(data[1..]);
    }
  }
}

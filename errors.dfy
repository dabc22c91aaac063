/**
 * The error vocabulary of the protocol stack.
 *
 * The Python source raises a bare `Exception(message)` for every protocol failure and lets
 * Python's own runtime errors (KeyError, IndexError, ValueError, OverflowError, NameError)
 * escape to the caller.  Each distinct raise becomes one constructor here, so that the model
 * can say WHICH failure an operation reports, and `Result` carries either a value or one of them.
 */
module Errors {

  datatype Option<+T> = None | Some(value: T)

  /** Either the value an operation returns or the exception it raises. */
  datatype Result<+T> = Success(value: T) | Failure(error: Error) {
    predicate IsFailure() {
      Failure?
    }

    function PropagateFailure<U>(): Result<U>
      requires Failure?
    {
      Failure(error)
    }

    function Extract(): T
      requires Success?
    {
      value
    }
  }

  /** The nine reader-level status words the bridge names (PC/SC part 3 supplement). */
  datatype PseudoReason =
    | InformationUnavailable      // 62 82
    | NoInformation               // 63 00
    | FailureInOtherDataObject    // 63 01
    | UnsupportedDataObject       // 6A 81
    | UnexpectedLength            // 67 00
    | UnexpectedValue             // 6A 80
    | NoResponseFromIfd           // 64 00
    | NoResponseFromIcc           // 64 01
    | DataObjectFailed            // 6F 00

  /** The ISO/IEC 15693-3 response error codes the bridge names. */
  datatype VicinityReason =
    | CommandNotSupported         // 0x01
    | CommandNotRecognized        // 0x02
    | OptionNotSupported          // 0x03
    | UnknownVicinityError        // 0x0F
    | BlockUnavailable            // 0x10
    | BlockAlreadyLocked          // 0x11
    | BlockLocked                 // 0x12
    | ProgrammingFailed           // 0x13
    | LockingFailed               // 0x14

  datatype Error =
    // The PC/SC transport
    | NoReply                                   // the reader gave no answer at all
    | UnexpectedStatusWord(sw1: bv8, sw2: bv8)  // status word other than 90 00
    // Python runtime errors that the source lets escape
    | ByteOutOfRange                            // ValueError: bytes([...]) with a value outside 0..255
    | IntTooBig                                 // OverflowError: int.to_bytes on a value that does not fit
    | MissingTag(tag: int)                      // KeyError: a TLV tag absent from the reply
    | IndexOutOfRange                           // IndexError: data[i] past the end
    | UnpackMismatch                            // ValueError: tuple unpacking of the wrong length
    | UndefinedName(name: string)               // NameError
    // The reader bridge
    | PseudoFailure(reason: PseudoReason, badData: bv8)
    | UnknownPseudoFailure(errorObject: seq<bv8>)
    | CrcCheckFailed
    | CollisionDetected
    | ParityErrorDetected
    | FramingErrorDetected
    | RfuStatus(status: bv8)
    | InvalidBits(framing: bv8)
    | CustomCommandError(code: bv8)
    | VicinityFailure(vicinityReason: VicinityReason)
    | RfuVicinityError(code: bv8)
    // The vicinity and vendor command layers
    | ExtendedFlagsNotSupported
    | NoBlockRequested                          // "Must read at least one block"
    | NoByteRequested                           // "Must read at least one byte"
    | NoByteToWrite                             // "Must write at least one byte"
    | BlockNotFourBytes
    | WatchdogExpired
    | TransactionReset
    | AddressNotAcknowledged
    | DataNotAcknowledged
    // The register tunnel and the sensor drivers
    | NotAcknowledged
    | EepromNotConfirmed
}

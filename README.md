# ntag5sensor — a verified model of the protocol stack

ntag5sensor reads I2C sensors through an NXP NTAG 5 Link tag. The host talks to the tag through an ACR1552 contactless reader. There are four layers:

- **Reader bridge** (`Reader`, `acr1552.dfy`):
  - the ACR1552 pseudo-APDUs of the PC/SC Part 3 transparent session (Manage Session, Transparent Exchange, Switch Protocol);
  - the reply checks, applied in a fixed order: error object, response status, framing bits, then the inner ISO/IEC 15693-3 error flag.
- **ISO/IEC 15693-3** (`Iso15693`, `iso15693.dfy`):
  - Get System Information and Get Extended System Information, including the crypto-suite (CSI) list;
  - Read Single Block and Fast Extended Read Multiple Blocks.
- **NTAG 5 Link vendor commands** (`Ntag5Link`, `ntag5link.dfy`):
  - NXP system info;
  - configuration pages, read and written by read-modify-write;
  - SRAM and the I2C master: read, write, status and busy flag;
  - energy harvesting control.
- **Register tunnel** (`I2cBase`, `i2cbase.dfy`): wait until the I2C master is idle, write the register address, check the acknowledgment, then read the answer back through SRAM.

On top of these sit:

- the sensor drivers `Tmp117`, `Tmp112` and `Si1143`;
- `Si114xCompress`, the Si114x 8-bit pseudo-float `Uncompress`/`Compress` codec.

Shared pieces:

- `Errors` holds `Option`, `Result` and one `Error` constructor per exception the source raises.
- `Bytes` holds the byte-level helpers.

## How the link is modelled

`Reader.Acr1552` is the one stateful transport. It has two fields:

- `sent`, a ghost log of every APDU handed to PC/SC;
- `script`, the replies the reader will give, one per transmit. An exhausted script is a transport failure.

Each reply carries its BER-TLV data already parsed into a map from tag to bytes.

Every operation that talks to the tag is modelled twice:

- **As a pure function** `XxxIo(script, …)` returning `Io(result, sent, rest)`: the result, the APDUs sent, and the replies left over.
- **As a method** on the class the source puts it in. Its postcondition is `Performed(XxxIo(old(script), …), r)`: the log grew by exactly `sent`, the script became `rest`, and the method returned `result`.

The properties of each operation are lemmas about its `Io` function. Examples:

- the order of the frames;
- "nothing is sent before the bus is idle";
- "no read after a NAK";
- "the other three bytes are written back unchanged".

The bus-busy poll and the TMP117 EEPROM-busy poll are `while` loops, as in the source. Each iteration consumes one scripted reply, which is what bounds them.

Bytes are `bv8`, 16-bit sensor registers `bv16`. Block numbers, counts, register addresses and register values that the source passes to `bytes([...])` or `int.to_bytes` are modelled as `int`; the `ValueError`/`OverflowError` that Python raises when they do not fit are explicit failures. The mode and address arguments of the vendor commands are `bv8` (see Left out).

## Model

| member | source | states |
|---|---|---|
| Reader.PseudoApdu | reader/acr1552.py:135-139 | the pseudo-APDU is `FF C2 00 function len(data)`, then the data, then a trailing `00`; its length is `len(data)+6` |
| Reader.ParsePseudoApdu | reader/acr1552.py:137-139 | a frame accepted as a pseudo-APDU has at least 6 bytes and carries `len-6` data bytes |
| Reader.ParseBuiltPseudoApdu | reader/acr1552.py:137-139 | parsing a built pseudo-APDU gives back the function and the data |
| Reader.BuildParsedPseudoApdu | reader/acr1552.py:137-139 | every frame that parses as a pseudo-APDU is exactly the one built from its parts |
| Reader.PseudoReasonTableInverse | reader/acr1552.py:118-128 | the nine named (sw1, sw2) error codes and their reasons are a bijection |
| Reader.SuccessIsNotAPseudoReason | reader/acr1552.py:112-117 | the success status `90 00` is none of the listed error codes |
| Reader.CheckPseudoError | reader/acr1552.py:112-133 | succeeds iff the error object is exactly `00 90 00`; an object that is not 3 bytes fails unpacking; a listed code reports its reason with the bad-data byte; any other code is "unknown" |
| Reader.CheckTransmitError | reader/acr1552.py:146-157 | succeeds iff the status byte is 0; otherwise the lowest set cause is reported, in the order CRC (bit 0), collision, parity, framing, then RFU (high nibble) |
| Reader.CheckFraming | reader/acr1552.py:159-163 | fails iff `framing & 0x07 != 0`, reporting the framing byte |
| Reader.VicinityTableInverse | reader/acr1552.py:165-180 | the ISO/IEC 15693 error codes and their named reasons are a bijection |
| Reader.CheckIsoErrorAsWritten | reader/acr1552.py:165-184 | the code as written: succeeds iff the error flag is clear; a set flag with a code outside A0..DF fails with a NameError on `code` |
| Reader.CheckIsoError | reader/acr1552.py:165-184 | succeeds iff the error flag is clear; otherwise reports a custom-command error for A0..DF, the named reason for a listed code, an RFU error for any other code, and IndexError when the code byte is missing |
| Reader.CheckIsoErrorAsWrittenDiffers | reader/acr1552.py:181-182 | the as-written check differs from the intended one exactly when it raises the NameError, and it never reports "block locked" |
| Reader.BlockLockedAnswerAsWritten | reader/acr1552.py:181-182 | the answer `01 12` raises NameError as written, but "block locked" as intended |
| Reader.TlvLength | reader/acr1552.py:189-192 | the BER length field is one octet below 128 and two octets (`81 n`) from 128 up |
| Reader.TlvLengthRoundTrip | reader/acr1552.py:189-192 | decoding the BER length field gives back the length |
| Reader.ExchangeData | reader/acr1552.py:188-192 | the Transparent Exchange data is the timeout TLV, then the FWTI TLV `03 01 0F`, then the data object holding the frame |
| Reader.TimeoutIsOneSecond | reader/acr1552.py:190 | the timeout value is 1000000 in 4 bytes, big-endian |
| Reader.ExchangeApdu | reader/acr1552.py:186-193 | the Transparent Exchange pseudo-APDU (function 01) carrying the exchange data of the frame; `ExchangeApduParses` proves it parses back |
| Reader.ExchangeApduParses | reader/acr1552.py:186-193 | the exchange APDU is a well-formed pseudo-APDU with function 01 carrying exactly the exchange data |
| Reader.Lookup | reader/acr1552.py:141-142 | a tag lookup succeeds iff the tag is present, and fails with a KeyError on that tag otherwise |
| Reader.FirstByte | reader/acr1552.py:194-198 | the first byte of a tag's value is available iff the tag is present and non-empty |
| Reader.ExchangeResult | reader/acr1552.py:194-200 | the exchange succeeds iff the status byte is 0, the framing bits are clear and the inner error flag is clear; it then returns the data without its first byte |
| Reader.CrcErrorReportedFirst | reader/acr1552.py:194-198 | a CRC error in the status wins over every later check |
| Reader.FramingCheckedAfterStatus | reader/acr1552.py:194-198 | a framing failure is reported only when the status byte was 0 |
| Reader.IsoErrorCheckedLast | reader/acr1552.py:194-198 | an ISO/IEC 15693 error is reported only after status and framing passed |
| Reader.ExchangeResultAsWritten | reader/acr1552.py:165-200 | the ordered checks with the inner flag checked as written, so an error code outside A0..DF raises NameError |
| Reader.ExchangeResultAsWrittenDiffers | reader/acr1552.py:181-182 | the exchange as written succeeds on exactly the responses the intended one accepts, and differs from it exactly where it raises the NameError |
| Reader.BlockLockedExchangeAsWritten | reader/acr1552.py:181-182 | a clean response whose data is `01 12` raises NameError as written, and "block locked" as intended |
| Reader.PcscIo | reader/pcscreader.py:29-35 | one APDU is sent; the reply is accepted iff it exists and its status word is `90 00` |
| Reader.PseudoIo | reader/acr1552.py:135-144 | data over 255 bytes is rejected before sending; otherwise exactly the pseudo-APDU is sent, and success means the error object checked clean |
| Reader.ExchangeIo | reader/acr1552.py:186-200 | an oversized frame is rejected before sending; otherwise exactly one exchange APDU is sent, and its result is the ordered check of the reply |
| Reader.ExchangeSucceeds | reader/acr1552.py:186-200 | with a clean PC/SC and pseudo-APDU status, the exchange result is the result of checking the reply's TLVs |
| Reader.ConnectIo | reader/acr1552.py:80-85 | connect first sends Begin Session `81 00`; on success it has sent exactly Begin Session, then Switch Protocol `8F 02 02 03` |
| Reader.ConnectStopsAfterFailedBegin | reader/acr1552.py:80-85 | when Begin Session fails, nothing else is sent and connect fails |
| Reader.DisconnectIo | reader/acr1552.py:108-110 | disconnect sends exactly End Session `82 00` and succeeds iff that pseudo-APDU does |
| Reader.Acr1552.constructor | reader/acr1552.py:71-72 | a fresh reader has sent nothing and holds the given replies |
| Reader.Acr1552.TransmitPcsc | reader/pcscreader.py:29-35 | performs `PcscIo` on the reader's state |
| Reader.Acr1552.TransmitPseudo | reader/acr1552.py:135-144 | performs `PseudoIo` on the reader's state |
| Reader.Acr1552.Connect | reader/acr1552.py:80-85 | performs `ConnectIo` on the reader's state |
| Reader.Acr1552.Disconnect | reader/acr1552.py:108-110 | performs `DisconnectIo` on the reader's state |
| Reader.Acr1552.TransmitIso15693 | reader/acr1552.py:186-200 | performs `ExchangeIo` on the reader's state |
| Iso15693.Take | vicinity/iso15693.py:114-133 | an optional field is consumed iff its flag is set, which needs enough bytes (IndexError otherwise); an absent field consumes nothing |
| Iso15693.TakeField | vicinity/iso15693.py:114-133 | taking a field from its own encoding followed by the rest gives back the field and the rest |
| Iso15693.AfiOf | vicinity/iso15693.py:117-122 | family and sub-family are nibbles that recombine to the AFI byte |
| Iso15693.MemorySizeOf | vicinity/iso15693.py:123-130 | the block size is `(raw & 0x1F)+1`, in 1..32, and the memory is block size times block count |
| Iso15693.SystemInfoOf | vicinity/iso15693.py:106-135 | decoding succeeds iff the flags byte exists and, when any field is flagged, all flagged fields fit after the UID; the UID is bytes 1..8 reversed; each optional field is present iff its flag bit is set; the block count is 1..256 |
| Iso15693.DecodeSystemInfo | vicinity/iso15693.py:106-135 | the cursor-based decoder returns exactly `SystemInfoOf` |
| Iso15693.SystemInfoExample | vicinity/iso15693.py:106-135 | a reply with all four fields decodes to DSFID 1, AFI 0/0, 16 blocks of 4 bytes (64 bytes) and IC reference 2 |
| Iso15693.InfoFlagsOf | vicinity/iso15693.py:114-133 | each of the four flag bits is set iff the matching field is present |
| Iso15693.AfiRoundTrip | vicinity/iso15693.py:117-122 | splitting a recombined AFI gives back the same family and sub-family |
| Iso15693.MemorySizeRoundTrip | vicinity/iso15693.py:123-130 | encoding a memory size as `count-1` and `size-1` and decoding it gives back the same size |
| Iso15693.SystemInfoRoundTrip | vicinity/iso15693.py:106-135 | every well-formed system info decodes back from its wire encoding |
| Iso15693.CapabilityBitsDistinct | vicinity/iso15693.py:176-209 | each of the 30 named commands sits at its own byte and bit of the 4-byte command list |
| Iso15693.CapabilityAtInverse | vicinity/iso15693.py:176-209 | each named bit of the command list is the bit of the capability it names |
| Iso15693.SupportsNamedBit | vicinity/iso15693.py:176-209 | a capability is reported supported exactly when its bit of the 4-byte command list is set |
| Iso15693.CsiOf | vicinity/iso15693.py:225-249 | a CSI is ISO/IEC 29167 iff `raw & 0xC0 == 0`, manufacturer iff otherwise `raw & 0xF0 == 0xD0`, GS1 iff `raw & 0xF0 == 0xE0`, and RFU otherwise |
| Iso15693.CsiByteOfCsi | vicinity/iso15693.py:225-249 | the classification loses nothing: the raw CSI byte can be rebuilt from it |
| Iso15693.CsiOfCsiByte | vicinity/iso15693.py:225-249 | every well-formed CSI classifies back to itself |
| Iso15693.CsiListOf | vicinity/iso15693.py:219-252 | a CSI list of `count` entries decodes iff enough bytes remain; entry k is the classification of byte `start+k` |
| Iso15693.DecodeCsiList | vicinity/iso15693.py:219-252 | the append loop returns exactly `CsiListOf` |
| Iso15693.CsiListShift | vicinity/iso15693.py:219-252 | decoding from a suffix equals decoding from the matching offset |
| Iso15693.CsiFieldOf | vicinity/iso15693.py:210-255 | a zero length byte means exactly one entry, the zero byte itself (`Iso29167(0)`); otherwise the length byte is consumed and that many entries follow; the list is never empty |
| Iso15693.ExtendedMemoryField | vicinity/iso15693.py:160-168 | the extended block count is two bytes little-endian plus 1, so 1..65536 |
| Iso15693.ExtendedTailOf | vicinity/iso15693.py:172-255 | MOI, command list and CSI list are each present iff their flag bit is set; the command list is 4 bytes; the CSI list is non-empty |
| Iso15693.ExtendedBaseOf | vicinity/iso15693.py:148-171 | the UID is bytes 1..8 reversed; DSFID, AFI, memory size and IC reference are each present iff flagged; the memory size has 1..65536 blocks |
| Iso15693.ExtendedSystemInfoOf | vicinity/iso15693.py:137-257 | an empty reply is an IndexError; the length flag (bit 7) is rejected; on success each of the seven optional fields (DSFID, AFI, memory size, IC reference, MOI, command list, CSI list) is present iff its flag bit is set |
| Iso15693.ExtendedFlagsOf | vicinity/iso15693.py:144-255 | the flags byte of an encoded extended answer has each of the seven field bits set iff that field is present, and the length bit (bit 7) clear |
| Iso15693.LittleEndian16 | vicinity/iso15693.py:160-164 | a count below 65536 becomes a low byte and a high byte whose value `low + 256 * high` is the count |
| Iso15693.ExtendedMemoryRoundTrip | vicinity/iso15693.py:160-168 | encoding a memory size of up to 65536 blocks of up to 32 bytes as the three-byte extended field and decoding it gives back the same size |
| Iso15693.CsiFieldRoundTrip | vicinity/iso15693.py:210-255 | a list of 1..255 well-formed suites, sent as its length byte followed by one identifier byte per suite, decodes back to the same list |
| Iso15693.ExtendedFieldsTaken | vicinity/iso15693.py:148-171 | the decoder takes DSFID, AFI, memory size and IC reference off the encoded fields in turn, each exactly when flagged, leaving the extended-only bytes |
| Iso15693.ExtendedBaseFieldsRoundTrip | vicinity/iso15693.py:148-171 | each of the four shared fields decodes back to the record's own value |
| Iso15693.ExtendedBaseRoundTrip | vicinity/iso15693.py:148-171 | the shared part of an encoded extended answer decodes back to the same basic record, leaving the extended-only bytes |
| Iso15693.ExtendedTailRoundTrip | vicinity/iso15693.py:172-255 | MOI, command list and suite list decode back from their bytes |
| Iso15693.ExtendedSystemInfoRoundTrip | vicinity/iso15693.py:137-257 | every well-formed extended system info decodes back from its wire encoding |
| Iso15693.ExtendedAgreesWithBasic | vicinity/iso15693.py:106-168 | without memory-size or extended flags, the extended decoder succeeds iff the basic one does, with the same base fields |
| Iso15693.SingleCsiWithoutLength | vicinity/iso15693.py:210-218 | a reply whose CSI list holds only `00` decodes to the single suite `Iso29167(0)` |
| Iso15693.DecodeExtendedSystemInfo | vicinity/iso15693.py:137-257 | the cursor-based decoder returns exactly `ExtendedSystemInfoOf` |
| Iso15693.DecodeExtendedBase | vicinity/iso15693.py:148-171 | the first half of the cursor decoder agrees with `ExtendedBaseOf`, and its cursor marks the remaining bytes |
| Iso15693.DecodeCsiField | vicinity/iso15693.py:210-255 | the CSI step of the cursor decoder returns exactly `CsiFieldOf` |
| Iso15693.DecodeExtendedTail | vicinity/iso15693.py:172-255 | the second half of the cursor decoder returns exactly `ExtendedTailOf` |
| Iso15693.SingleBlockOf | vicinity/iso15693.py:259-264 | a non-empty reply is returned whole (status byte included); locked is 1 iff bit 0 of the status is set |
| Iso15693.ReadMultipleBlocksFrame | vicinity/iso15693.py:270-272 | the frame is `42 3D`, the start block (2 bytes big-endian), then `n-1` (2 bytes big-endian) |
| Iso15693.OffsetIsProduct | vicinity/iso15693.py:273-280 | after i steps the read offset is `i * (len // n)` |
| Iso15693.OffsetInRange | vicinity/iso15693.py:273-280 | every chunk the loop takes lies inside the reply |
| Iso15693.BlockAt | vicinity/iso15693.py:273-280 | a chunk's locked value is 0 or 1 |
| Iso15693.BlocksOf | vicinity/iso15693.py:273-280 | splitting succeeds iff the reply is non-empty, and yields exactly n blocks |
| Iso15693.BlocksPrefixStep | vicinity/iso15693.py:273-280 | each loop step appends block i to the first i blocks |
| Iso15693.SplitBlocks | vicinity/iso15693.py:273-280 | the split loop returns exactly `BlocksOf` |
| Iso15693.BlocksAnswerLength | vicinity/iso15693.py:273-280 | a reply of n (status, k-byte payload) blocks is `n*(k+1)` bytes long |
| Iso15693.BlocksAnswerAt | vicinity/iso15693.py:273-280 | block i of such a reply sits at offset `i*(k+1)` |
| Iso15693.BlockAtAnswer | vicinity/iso15693.py:273-280 | chunk i of such a reply is payload i, locked by bit 0 of status i |
| Iso15693.BlocksOfAnswer | vicinity/iso15693.py:266-280 | splitting a reply of n equal blocks recovers every payload and lock bit |
| Iso15693.GetSystemInfoIo | vicinity/iso15693.py:106-135 | sends exactly the `02 2B` exchange, and a success is the decoding of the exchange's answer |
| Iso15693.GetExtendedSystemInfoIo | vicinity/iso15693.py:137-147 | sends exactly the `02 3B 7F` exchange, and a success is the extended decoding of the answer |
| Iso15693.ReadSingleBlockIo | vicinity/iso15693.py:259-264 | a block number outside 0..255 is rejected before sending; otherwise exactly one Read Single Block exchange is sent, a failed exchange fails, and a successful one gives `SingleBlockOf` of its answer (the whole answer, locked iff bit 0 of the status byte; IndexError when empty) |
| Iso15693.ReadMultipleBlocksIo | vicinity/iso15693.py:266-280 | `num_blocks < 1` is rejected before sending, and values too big for 2 bytes are rejected as well; otherwise exactly one frame is sent, a failed exchange fails, and a successful one gives `BlocksOf` of its answer: `num_blocks` blocks, each a chunk of the answer with bit 0 of its first byte as lock bit (`BlocksOfAnswer` shows every payload and lock bit is recovered) |
| Iso15693.Iso15693.constructor | vicinity/iso15693.py:103-104 | the layer is bound to the given reader |
| Iso15693.Iso15693.GetSystemInfo | vicinity/iso15693.py:106-135 | performs `GetSystemInfoIo` on the reader's state |
| Iso15693.Iso15693.GetExtendedSystemInfo | vicinity/iso15693.py:137-257 | performs `GetExtendedSystemInfoIo` on the reader's state |
| Iso15693.Iso15693.ReadSingleBlock | vicinity/iso15693.py:259-264 | performs `ReadSingleBlockIo` on the reader's state |
| Iso15693.Iso15693.ReadMultipleBlocks | vicinity/iso15693.py:266-280 | performs `ReadMultipleBlocksIo` on the reader's state |
| Ntag5Link.VendorRead | vicinity/ntag5link.py:218-220 | a vendor read frame is 5 bytes and carries the NXP manufacturer code 04 |
| Ntag5Link.CountedReadIo | vicinity/ntag5link.py:214-221 | a count below 1 is rejected before sending; one above 256 does not fit a byte; otherwise the frame carries `count-1` |
| Ntag5Link.ReadConfigBlockIo | vicinity/ntag5link.py:214-221 | `num_blocks < 1` sends nothing and fails; otherwise exactly `02 C0 04 addr n-1` is sent |
| Ntag5Link.ReadSramIo | vicinity/ntag5link.py:406-413 | `num_blocks < 1` sends nothing and fails; otherwise exactly `02 D2 04 addr n-1` is sent |
| Ntag5Link.SlaveParameter | vicinity/ntag5link.py:419 | the low 7 bits are the slave address mod 128; bit 7 is set iff no stop condition is wanted |
| Ntag5Link.ReadI2cIo | vicinity/ntag5link.py:415-423 | `num_bytes < 1` sends nothing and fails; otherwise exactly `02 D5 04 param n-1` is sent |
| Ntag5Link.WriteI2cFrame | vicinity/ntag5link.py:429-432 | the frame carries `len(data)-1` and then the data |
| Ntag5Link.WriteI2cIo | vicinity/ntag5link.py:425-433 | empty data is rejected before sending; otherwise exactly one write-I2C exchange is sent |
| Ntag5Link.WriteConfigBlockFrame | vicinity/ntag5link.py:349-351 | the frame is `02 C1 04 addr` followed by the 4 data bytes |
| Ntag5Link.WriteConfigBlockIo | vicinity/ntag5link.py:346-351 | a block that is not 4 bytes is rejected before sending; otherwise exactly one write exchange is sent, and the write succeeds iff that exchange does |
| Ntag5Link.InterfaceCode | vicinity/ntag5link.py:172-177 | the four interface names and the codes 0..3 are inverse lookups |
| Ntag5Link.FeaturesOf | vicinity/ntag5link.py:179-207 | num_keys is `b3 & 0x0F`, the interface is looked up from `(b3 & 0x60) >> 5`, and extended flags are present iff bit 7 of b3 is set |
| Ntag5Link.NxpInfoOf | vicinity/ntag5link.py:149-212 | decoding succeeds iff the reply has at least 7 bytes (IndexError below 3, unpacking error below 7); extended flags are `data[7:11]` exactly when bit 7 of b3 is set |
| Ntag5Link.FeatureBytes | vicinity/ntag5link.py:179-207 | the feature flags encode into 4 bytes |
| Ntag5Link.PpConditionRoundTrip | vicinity/ntag5link.py:157-163 | the four protection-condition flags survive encoding and decoding |
| Ntag5Link.LockBitsRoundTrip | vicinity/ntag5link.py:165-170 | the three lock flags survive encoding and decoding |
| Ntag5Link.FeatureByte0RoundTrip | vicinity/ntag5link.py:181-189 | each of the eight byte-0 feature flags sits in its own bit |
| Ntag5Link.FeatureByte1RoundTrip | vicinity/ntag5link.py:191-196 | each of the five byte-1 feature flags sits in its own bit |
| Ntag5Link.FeatureByte3RoundTrip | vicinity/ntag5link.py:201-206 | in byte 3, the extended-flags bit, the interface code and the key count are each recoverable |
| Ntag5Link.FeaturesRoundTrip | vicinity/ntag5link.py:179-207 | decoding the encoded feature bytes gives back the same features |
| Ntag5Link.NxpInfoRoundTrip | vicinity/ntag5link.py:149-212 | every well-formed NXP info decodes back from its wire encoding |
| Ntag5Link.EhModeBits | vicinity/ntag5link.py:233-241 | the four energy-harvesting mode constants decode to their names |
| Ntag5Link.ArbiterModeBits | vicinity/ntag5link.py:249-256 | the four arbiter mode constants decode to their names |
| Ntag5Link.UseCaseBits | vicinity/ntag5link.py:258-265 | the four use-case constants decode to their names |
| Ntag5Link.PadInCode | vicinity/ntag5link.py:274-290 | the four pad-input codes decode to their names |
| Ntag5Link.ConfigInfoOf | vicinity/ntag5link.py:223-292 | decoding needs at least 3 bytes of the page; the EH mode comes from bits 2-3 of byte 0, the GPIO1 pad from bits 6-7 of byte 2 |
| Ntag5Link.Config0Of | vicinity/ntag5link.py:229-241 | byte 0 decoded bit by bit: auto standby (bit 0), session lock (bit 1), EH mode (bits 2-3), SRAM copy (bit 7); `Config0RoundTrip` is its inverse |
| Ntag5Link.Config1Of | vicinity/ntag5link.py:243-264 | byte 1: transfer direction (bit 0), SRAM enable (bit 1), arbiter mode (bits 2-3), use case (bits 4-5), EH arbiter mode (bit 7); `Config1RoundTrip` is its inverse |
| Ntag5Link.Config2Of | vicinity/ntag5link.py:266-290 | byte 2: the two slew rates (bits 0, 1), lock-block and extended commands (bits 2, 3), the two pad inputs (bits 4-5, 6-7); `Config2RoundTrip` is its inverse |
| Ntag5Link.Config0RoundTrip | vicinity/ntag5link.py:229-243 | decoding a byte 0 built as `write_config0` builds it gives back every argument |
| Ntag5Link.Config1RoundTrip | vicinity/ntag5link.py:245-266 | decoding a byte 1 built as `write_config1` builds it gives back every argument |
| Ntag5Link.Config2RoundTrip | vicinity/ntag5link.py:268-290 | decoding a byte 2 built as `write_config2` is meant to build it gives back every argument |
| Ntag5Link.EhEdConfigOf | vicinity/ntag5link.py:294-344 | needs 3 bytes; current, voltage and ED mode are always one of their 8, 4 and 16 names; enable is bit 0 and power-check-disable bit 3 |
| Ntag5Link.EhEdConfigBlock | vicinity/ntag5link.py:400-404 | the EH/ED page written is `[eh_config, 0, ed_config, 0]` |
| Ntag5Link.NamesDistinct | vicinity/ntag5link.py:299-340 | the names in each of the three lookup tables are distinct |
| Ntag5Link.EhEdConfigRoundTrip | vicinity/ntag5link.py:294-344 | decoding a page built by `write_eh_ed_config` gives back each selected name and flag |
| Ntag5Link.WriteResultOf | vicinity/ntag5link.py:435-449 | the watchdog bit fails first; then transaction status 0, 2 and 4 fail as reset, address NAK and data NAK; success needs status 6 and always yields True |
| Ntag5Link.StatusByteIo | vicinity/ntag5link.py:436-437 | reads one config block and yields its first byte |
| Ntag5Link.CheckI2cWriteResultIo | vicinity/ntag5link.py:435-449 | reads the I2C master status register (AD); a failed read fails, otherwise the result is `WriteResultOf` of the status byte, so only a successful transaction gives True and every other status raises |
| Ntag5Link.CheckI2cBusyIo | vicinity/ntag5link.py:451-454 | reads the I2C master status register (AD); busy iff bit 0 of byte 0 is set |
| Ntag5Link.CheckEhLoadOkIo | vicinity/ntag5link.py:466-469 | reads the EH configuration register (A7); load OK iff bit 7 of byte 0 is set |
| Ntag5Link.EhControlIo | vicinity/ntag5link.py:456-464 | sends exactly one write of `[flags, 0, 0, 0]` to A7, without reading the page first |
| Ntag5Link.WriteEhEdConfigIo | vicinity/ntag5link.py:397-404 | sends exactly one write of the EH/ED page (3D), without reading the page first |
| Ntag5Link.ReplaceConfigByteKeepsOthers | vicinity/ntag5link.py:353-395 | a config write first reads page 37; on success it writes back a 4-byte page equal to the read one except at the target byte; if the read fails, nothing is written |
| Ntag5Link.ReadConfigPageIsExchange | vicinity/ntag5link.py:356-357 | reading the configuration page is exactly one exchange of the one-block Read Config frame |
| Ntag5Link.ReplaceConfigByteReadsFirst | vicinity/ntag5link.py:356-364 | the page read is the first APDU sent; if it fails, it is the only APDU and the operation fails |
| Ntag5Link.ReplaceConfigByteWritten | vicinity/ntag5link.py:356-364 | after a successful replacement, the APDUs sent are the page read and then one write of that page with byte `index` replaced |
| Ntag5Link.ReplaceConfigByteIo | vicinity/ntag5link.py:356-364 | succeeds only after a successful read of page 37 that holds the target byte; a shorter page is an IndexError after the read, with nothing written |
| Ntag5Link.WriteConfig0Io | vicinity/ntag5link.py:353-364 | `write_config0` is the read-modify-write of byte 0 with the byte composed from its arguments (`Config0RoundTrip` decodes it back) |
| Ntag5Link.WriteConfig1Io | vicinity/ntag5link.py:366-379 | `write_config1` is the read-modify-write of byte 1 with the byte composed from its arguments (`Config1RoundTrip`) |
| Ntag5Link.WriteConfig2Io | vicinity/ntag5link.py:381-395 | the corrected `write_config2`: the read-modify-write of byte 2 with the pad inputs taken from its own parameters (`Config2RoundTrip`) |
| Ntag5Link.WriteConfig2AsWrittenIo | vicinity/ntag5link.py:381-395 | as written, `write_config2` reads the page and then always fails |
| Ntag5Link.WriteConfig2AsWrittenNeverWrites | vicinity/ntag5link.py:392-393 | as written, it raises a NameError on `gpio0_pad_in` after the read and never writes, while the intended version writes |
| Ntag5Link.GetNxpInfoIo | vicinity/ntag5link.py:149-151 | sends exactly the `02 AB 04` exchange, and a success is the decoding of its answer |
| Ntag5Link.GetConfigInfoIo | vicinity/ntag5link.py:223-226 | reads exactly page 37, and a success is its decoding |
| Ntag5Link.GetEhEdConfigInfoIo | vicinity/ntag5link.py:294-295 | reads exactly page 3D, and a success is its decoding |
| Ntag5Link.Ntag5Link.constructor | vicinity/ntag5link.py:146-147 | the layer is bound to the given reader |
| Ntag5Link.Ntag5Link.GetNxpInfo | vicinity/ntag5link.py:149-212 | performs `GetNxpInfoIo` on the reader's state |
| Ntag5Link.Ntag5Link.ReadConfigBlock | vicinity/ntag5link.py:214-221 | performs `ReadConfigBlockIo` on the reader's state |
| Ntag5Link.Ntag5Link.GetConfigInfo | vicinity/ntag5link.py:223-292 | performs `GetConfigInfoIo` on the reader's state |
| Ntag5Link.Ntag5Link.GetEhEdConfigInfo | vicinity/ntag5link.py:294-344 | performs `GetEhEdConfigInfoIo` on the reader's state |
| Ntag5Link.Ntag5Link.WriteConfigBlock | vicinity/ntag5link.py:346-351 | performs `WriteConfigBlockIo` on the reader's state |
| Ntag5Link.Ntag5Link.ReplaceConfigByte | vicinity/ntag5link.py:356-364 | reads page 37, replaces one byte in the list, and writes the page back |
| Ntag5Link.Ntag5Link.WriteConfig0 | vicinity/ntag5link.py:353-364 | a read-modify-write of byte 0 of page 37 |
| Ntag5Link.Ntag5Link.WriteConfig1 | vicinity/ntag5link.py:366-379 | a read-modify-write of byte 1 of page 37 |
| Ntag5Link.Ntag5Link.WriteConfig2AsWritten | vicinity/ntag5link.py:381-395 | performs the as-written `write_config2`: it reads, then fails |
| Ntag5Link.Ntag5Link.WriteConfig2 | vicinity/ntag5link.py:381-395 | a read-modify-write of byte 2 of page 37, using the pad-input arguments |
| Ntag5Link.Ntag5Link.WriteEhEdConfig | vicinity/ntag5link.py:397-404 | performs `WriteEhEdConfigIo` on the reader's state |
| Ntag5Link.Ntag5Link.ReadSram | vicinity/ntag5link.py:406-413 | performs `ReadSramIo` on the reader's state |
| Ntag5Link.Ntag5Link.ReadI2c | vicinity/ntag5link.py:415-423 | performs `ReadI2cIo` on the reader's state |
| Ntag5Link.Ntag5Link.WriteI2c | vicinity/ntag5link.py:425-433 | performs `WriteI2cIo` on the reader's state |
| Ntag5Link.Ntag5Link.CheckI2cWriteResult | vicinity/ntag5link.py:435-449 | performs `CheckI2cWriteResultIo` on the reader's state |
| Ntag5Link.Ntag5Link.CheckI2cBusy | vicinity/ntag5link.py:451-454 | performs `CheckI2cBusyIo` on the reader's state |
| Ntag5Link.Ntag5Link.EhControl | vicinity/ntag5link.py:456-464 | performs `EhControlIo` on the reader's state |
| Ntag5Link.Ntag5Link.CheckEhLoadOk | vicinity/ntag5link.py:466-469 | performs `CheckEhLoadOkIo` on the reader's state |
| I2cBase.Pages | vicinity/i2cbase.py:21 | the SRAM page count is `ceil(length/4)` |
| I2cBase.PollIdleIo | vicinity/i2cbase.py:13-15 | the poll sends only status queries, at least one, and at most one per scripted reply |
| I2cBase.PollIdleEndsIdle | vicinity/i2cbase.py:13-15 | a poll that succeeds ended on a status read that said "not busy" |
| I2cBase.PollIdleWaitsWhileBusy | vicinity/i2cbase.py:13-15 | every status read before the last one said "busy" |
| I2cBase.PollUnfold | vicinity/i2cbase.py:13-15 | the poll is one busy check followed by the rest of the poll |
| I2cBase.WriteAckIo | vicinity/i2cbase.py:16-18 | an I2C write of the given data is sent, then the write result is checked; a success sent exactly those two frames |
| I2cBase.ReadBackIo | vicinity/i2cbase.py:19-22 | a success sent the read-I2C of `length` bytes (with stop), then the SRAM read of `ceil(length/4)` pages, and returns the first `length` SRAM bytes |
| I2cBase.ReadRegisterIo | vicinity/i2cbase.py:12-22 | starts with the whole idle poll; nothing else is sent unless the poll succeeded |
| I2cBase.WriteRegisterIo | vicinity/i2cbase.py:24-30 | starts with the whole idle poll; nothing else is sent unless the poll succeeded |
| I2cBase.GeneralResetIo | vicinity/i2cbase.py:32-39 | starts with the whole idle poll; nothing else is sent unless the poll succeeded |
| I2cBase.ExtendsPoll | vicinity/i2cbase.py:13-15 | a log that starts with the poll, and goes further only after the poll succeeded, waited for idle |
| I2cBase.NoTransferUntilIdle | vicinity/i2cbase.py:12-39 | register reads, register writes and general resets all wait for idle before any transfer |
| I2cBase.ReadRegisterWritesAddressFirst | vicinity/i2cbase.py:16 | after the poll, the first frame is the I2C write of `[register]` |
| I2cBase.NoReadAfterNak | vicinity/i2cbase.py:17-19 | when the acknowledgment check fails, the read fails and no read-I2C or SRAM read is sent |
| I2cBase.ReadRegisterSendsFrames | vicinity/i2cbase.py:12-22 | a successful read sends the poll, then the address write, the status query, the read-I2C and the SRAM read, in that order |
| I2cBase.ReadRegisterReadsPages | vicinity/i2cbase.py:19-22 | a successful read reads `ceil(length/4)` SRAM pages and returns at most `length` bytes from their start |
| I2cBase.ReadRegisterSteps | vicinity/i2cbase.py:12-22 | a successful read is the poll, then an acknowledged address write, then the read back |
| I2cBase.WriteRegisterSingleWrite | vicinity/i2cbase.py:24-30 | a successful write sends `[register] + data` in one I2C write after the poll, then checks it; values that are not bytes fail after the poll and send nothing more |
| I2cBase.GeneralResetWritesResetCommand | vicinity/i2cbase.py:32-39 | a successful reset writes `[06]` to address 00 after the poll, then checks it |
| I2cBase.I2cDevice.constructor | vicinity/i2cbase.py:8-10 | the device is bound to its chip and I2C address |
| I2cBase.I2cDevice.WaitIdle | vicinity/i2cbase.py:13-15 | the busy loop performs `PollIdleIo` |
| I2cBase.I2cDevice.WriteAck | vicinity/i2cbase.py:16-18 | performs `WriteAckIo` |
| I2cBase.I2cDevice.ReadBack | vicinity/i2cbase.py:19-22 | performs `ReadBackIo` |
| I2cBase.I2cDevice.ReadRegister | vicinity/i2cbase.py:12-22 | performs `ReadRegisterIo` |
| I2cBase.I2cDevice.WriteRegister | vicinity/i2cbase.py:24-30 | performs `WriteRegisterIo` |
| I2cBase.I2cDevice.GeneralReset | vicinity/i2cbase.py:32-39 | performs `GeneralResetIo` |
| Tmp117.RawToCelsiusResolution | vicinity/tmp117.py:57-58 | the temperature is the signed 16-bit value divided by 128, in [-256, 256) |
| Tmp117.RawToCelsius | vicinity/tmp117.py:57-58 | one unit of the signed register value is exactly 1/128 °C |
| Tmp117.ModeOf | vicinity/tmp117.py:103-110 | shutdown iff the mode bits are 01, one-shot iff 11, continuous otherwise (00 and 10) |
| Tmp117.AveragingOf | vicinity/tmp117.py:113-120 | each averaging name corresponds to exactly one value of bits 5-6 |
| Tmp117.CycleCode | vicinity/tmp117.py:122 | the conversion-cycle code is in 0..7 |
| Tmp117.ConversionCycleIsMax | vicinity/tmp117.py:122-153 | the cycle time in the table is the larger of the nominal cycle time and the time the averaging takes |
| Tmp117.ConversionCycleMs | vicinity/tmp117.py:122-153 | the table entry is never shorter than the nominal cycle of its code |
| Tmp117.ConfigInfoOf | vicinity/tmp117.py:88-165 | data-ready is bit 13; mode, averaging and conversion cycle are the decodings of the word |
| Tmp117.DeviceIdSplit | vicinity/tmp117.py:176-181 | the id is the low 12 bits and the revision the high 4, which recombine to the word |
| Tmp117.EepromInfoOf | vicinity/tmp117.py:167-183 | the device id is split from the 7th register read; the three EEPROM words are returned as read |
| Tmp117.CycleBits | vicinity/tmp117.py:196-197 | the cycle is shifted to bit 7 and truncated to 3 bits, and touches no other bit |
| Tmp117.FieldOf | vicinity/tmp117.py:192-200 | a supplied value must fit 16 bits (OverflowError otherwise); a field is written iff it is supplied |
| Tmp117.SetFieldKeeps | vicinity/tmp117.py:192-200 | clearing a mask and setting a value inside it changes only that mask |
| Tmp117.FieldStepKeeps | vicinity/tmp117.py:192-200 | an optional field update changes only its mask, and only when supplied |
| Tmp117.ApplyFieldsKeeps | vicinity/tmp117.py:192-200 | the three updates together set each supplied field and keep every other bit |
| Tmp117.CycleField | vicinity/tmp117.py:196-197 | a supplied cycle becomes `(cycle % 8) << 7` |
| Tmp117.ApplyConfig | vicinity/tmp117.py:188-200 | the update fails iff a supplied mode or averaging does not fit 16 bits |
| Tmp117.UpdateConfig | vicinity/tmp117.py:188-200 | the `&=`/`\|=` steps compute exactly `ApplyConfig` |
| Tmp117.ApplyConfigTouchesOnlySuppliedFields | vicinity/tmp117.py:188-200 | with mode and averaging inside their masks, the update sets exactly the supplied fields and keeps all other bits |
| Tmp117.SuppliedFieldAfter | vicinity/tmp117.py:192-200 | a supplied value replaces the field, and an absent one keeps it |
| Tmp117.CycleAfter | vicinity/tmp117.py:196-197 | after the update the cycle code is `cycle % 8` if supplied, and unchanged otherwise |
| Tmp117.ReadWordBackIo | vicinity/tmp117.py:66-69 | the read back yields at most 2 bytes and consumes replies |
| Tmp117.ReadWordBackIsReadBack | vicinity/tmp117.py:66-69 | the driver's read back is the tunnel's read back of 2 bytes |
| Tmp117.ReadRegisterIo | vicinity/tmp117.py:60-69 | a register read yields at most 2 bytes and consumes replies |
| Tmp117.ReadRegisterIsTunnelRead | vicinity/tmp117.py:60-69 | the driver's own register read is the tunnel's register read of length 2 |
| Tmp117.GetConfigInfoIo | vicinity/tmp117.py:88-90 | a success is the decoding of the configuration register read |
| Tmp117.ReadRegistersIo | vicinity/tmp117.py:167-175 | reading a list of registers yields one value of at most 2 bytes per register |
| Tmp117.GetEepromInfoIo | vicinity/tmp117.py:167-183 | a success is the decoding of the seven register reads |
| Tmp117.ReadTemperatureGatedByDataReady | vicinity/tmp117.py:228-236 | with data-ready clear, only the config is read and the result is "no value"; with it set, the temperature register is read and converted |
| Tmp117.ReadTemperatureIo | vicinity/tmp117.py:228-236 | a success follows a successful config read, and gives no value exactly when data-ready (bit 13) was clear |
| Tmp117.EepromWaitIo | vicinity/tmp117.py:211-219 | the EEPROM wait consumes replies |
| Tmp117.EepromWaitUnfold | vicinity/tmp117.py:211-219 | the wait is one unlock-register read followed by the rest of the wait |
| Tmp117.EepromWaitEndsIdle | vicinity/tmp117.py:211-219 | a wait that succeeds ended on a read whose busy bit (14) was clear |
| Tmp117.RegisterBytes | vicinity/tmp117.py:204 | a 16-bit value becomes its two bytes, big-endian |
| Tmp117.ConfirmIo | vicinity/tmp117.py:211-226 | the confirmation consumes replies |
| Tmp117.ConfirmChecksReadBack | vicinity/tmp117.py:221-226 | after the wait and the reset, the write is confirmed iff the re-read config equals the value written, and fails otherwise |
| Tmp117.VolatileWriteConfigWritesOnce | vicinity/tmp117.py:202-204 | the non-persistent path reads the config and then writes the updated value to register 01, once |
| Tmp117.PersistentWriteConfigOrder | vicinity/tmp117.py:205-226 | the persistent path reads the config, unlocks (`80 00` to register 04), writes the config, then waits, resets and confirms, in that order |
| Tmp117.WriteConfigIo | vicinity/tmp117.py:185-226 | a success follows a successful config read whose update with the supplied fields fit 16 bits |
| Tmp117.UnlockBytes | vicinity/tmp117.py:207 | the unlock value 0x8000 goes out as `80 00` |
| Tmp117.Tmp117.constructor | vicinity/tmp117.py:53-55 | the driver is bound to its chip and I2C address |
| Tmp117.Tmp117.ReadWordBack | vicinity/tmp117.py:66-69 | performs `ReadWordBackIo` |
| Tmp117.Tmp117.ReadRegister | vicinity/tmp117.py:60-69 | performs `ReadRegisterIo`, its busy loop included |
| Tmp117.Tmp117.GetConfigInfo | vicinity/tmp117.py:88-165 | performs `GetConfigInfoIo` |
| Tmp117.Tmp117.ReadRegisters | vicinity/tmp117.py:167-175 | performs `ReadRegistersIo` |
| Tmp117.Tmp117.GetEepromInfo | vicinity/tmp117.py:167-183 | performs `GetEepromInfoIo` |
| Tmp117.Tmp117.ReadTemperature | vicinity/tmp117.py:228-236 | performs the data-ready-gated temperature read |
| Tmp117.Tmp117.WaitEeprom | vicinity/tmp117.py:211-219 | the EEPROM busy loop performs `EepromWaitIo` |
| Tmp117.Tmp117.Confirm | vicinity/tmp117.py:211-226 | performs `ConfirmIo` |
| Tmp117.Tmp117.WriteConfig | vicinity/tmp117.py:185-226 | performs the volatile or persistent configuration write |
| Tmp112.RawToCelsiusSixteenths | vicinity/tmp112.py:41-42 | the temperature is `(raw >> 4) / 16`, in [0, 256) |
| Tmp112.RawToCelsius | vicinity/tmp112.py:41-42 | one unit of the unsigned value shifted right by four is exactly 1/16 °C |
| Tmp112.NoSignExtension | vicinity/tmp112.py:41-42 | the reading `FF F0` is +255.9375, not negative |
| Tmp112.FaultQueueOf | vicinity/tmp112.py:63-70 | the fault queue is 1, 2, 4 or 6 |
| Tmp112.FaultQueueRoundTrip | vicinity/tmp112.py:63-70 | the fault-queue value determines bits 11-12 |
| Tmp112.ResolutionOf | vicinity/tmp112.py:73-74 | "12 Bit" iff bits 13 and 14 are both set, otherwise "Unknown" |
| Tmp112.ConversionRateOf | vicinity/tmp112.py:77-84 | the conversion rate is always one of the four names |
| Tmp112.ConversionRateRoundTrip | vicinity/tmp112.py:77-84 | the rate name determines bits 6-7 |
| Tmp112.ConfigInfoOf | vicinity/tmp112.py:44-86 | each single-bit flag is its bit (8, 9, 10, 15, 4, 5), and the limits are the converted register values |
| Tmp112.GetConfigInfoReadsThreeRegisters | vicinity/tmp112.py:44-86 | reads the config, the low limit and the high limit in that order, and converts the limits |
| Tmp112.GetConfigInfoIo | vicinity/tmp112.py:44-86 | the three register reads and the decoding of `ConfigInfoOf`; `GetConfigInfoReadsThreeRegisters` states their order |
| Tmp112.FlagField | vicinity/tmp112.py:94-99 | a supplied flag becomes that bit set or cleared, and an absent one leaves it |
| Tmp112.SetFlagKeeps | vicinity/tmp112.py:94-99 | setting or clearing one flag bit keeps all other bits |
| Tmp112.FlagStepKeeps | vicinity/tmp112.py:94-99 | an optional flag update touches only its bit |
| Tmp112.FlagChainKeeps | vicinity/tmp112.py:94-99 | the two updates together touch only bits 8 and 15 |
| Tmp112.ApplyFlagsTouchesOnlyTwoBits | vicinity/tmp112.py:88-101 | after the update, bit 8 and bit 15 are as supplied (or unchanged), and every other bit is kept |
| Tmp112.DefaultWriteConfigClearsShutdown | vicinity/tmp112.py:88-99 | the default call clears shutdown and keeps everything else |
| Tmp112.UpdateFlags | vicinity/tmp112.py:94-99 | the `&=`/`\|=` steps compute exactly `ApplyFlags` |
| Tmp112.ConfigBytes | vicinity/tmp112.py:101 | the register write carries `01` and the config, big-endian |
| Tmp112.WriteConfigWritesNewValue | vicinity/tmp112.py:88-101 | reads the config, then after the poll writes `01` and the updated value in a single write |
| Tmp112.WriteConfigIo | vicinity/tmp112.py:88-101 | a success follows a successful config read |
| Tmp112.ReadTemperatureGatedByOneShot | vicinity/tmp112.py:103-113 | no value iff shutdown is set and one-shot is clear; otherwise register 00 is read and converted |
| Tmp112.ReadTemperatureIo | vicinity/tmp112.py:103-113 | a success follows a successful config read, and gives no value exactly when shutdown is set and one-shot is clear |
| Tmp112.Tmp112.constructor | vicinity/tmp112.py:38-39 | the driver is bound to its chip and I2C address |
| Tmp112.Tmp112.GetConfigInfo | vicinity/tmp112.py:44-86 | performs the three-register configuration read |
| Tmp112.Tmp112.WriteConfig | vicinity/tmp112.py:88-101 | performs the read-modify-write of the config |
| Tmp112.Tmp112.ReadTemperature | vicinity/tmp112.py:103-113 | performs the gated temperature read |
| Si1143.PartName | vicinity/si1143.py:81-89 | a known name iff the id is 41, 42 or 43 |
| Si1143.PartNameRoundTrip | vicinity/si1143.py:81-89 | a known part name identifies its id |
| Si1143.SequencerName | vicinity/si1143.py:93-105 | a known name iff the id is 01, 02, 03, 08 or 09 |
| Si1143.SequencerNameRoundTrip | vicinity/si1143.py:93-105 | a known sequencer name identifies its id |
| Si1143.AsWrittenAlwaysUnknown | vicinity/si1143.py:81-105 | as written, comparing the bytes read with an int never matches, so both names are always "Unknown" |
| Si1143.AsWrittenMissesSi1143 | vicinity/si1143.py:81-105 | part id 43 and sequencer id 09 read as "Unknown" as written, but as Si1143 and A11 as intended |
| Si1143.PartNameOf | vicinity/si1143.py:79-89 | the part name is looked up on the one byte read |
| Si1143.SequencerNameOf | vicinity/si1143.py:92-105 | the sequencer name is looked up on the one byte read |
| Si1143.IntendedLookupRecognisesIds | vicinity/si1143.py:81-89 | the intended lookup recognises exactly the three part ids |
| Si1143.InitializeWritesHardwareKey | vicinity/si1143.py:73-75 | after the poll, initialize writes `[07, 17]` to address 5A in a single write |
| Si1143.GetInfoNamesReadIds | vicinity/si1143.py:77-107 | reads registers 00, 01 and 02 in order, then names the part and sequencer ids and returns the revision bytes |
| Si1143.InfoOf | vicinity/si1143.py:81-105 | the intended record: part and sequencer named from the byte read, the revision bytes as read |
| Si1143.InitializeIo | vicinity/si1143.py:73-75 | a successful initialize first waited for the bus to be idle (`InitializeWritesHardwareKey` gives the frames) |
| Si1143.GetInfoIo | vicinity/si1143.py:77-107 | the intended `get_info`: the three reads, named by the corrected lookups of the Findings row for si1143.py (see `GetInfoAsWrittenIo`) |
| Si1143.InfoAsWrittenOf | vicinity/si1143.py:81-105 | the record as written: part and sequencer named by comparing bytes with ints |
| Si1143.GetInfoAsWrittenIo | vicinity/si1143.py:77-107 | `get_info` as written: the same three reads, named by the written lookups |
| Si1143.GetInfoAsWrittenNamesNothing | vicinity/si1143.py:77-107 | as written, `get_info` sends the same frames and fails alike, and on success reports the same revision but "Unknown" for part and sequencer |
| Si1143.Si1143.constructor | vicinity/si1143.py:70-71 | the driver always targets I2C address 5A |
| Si1143.Si1143.Initialize | vicinity/si1143.py:73-75 | performs the hardware-key write |
| Si1143.Si1143.GetInfo | vicinity/si1143.py:77-107 | performs the three reads and the lookups |
| Si114xCompress.Uncompress | doc/si114x-compress.c:137 | every input below 8 decodes to 0 |
| Si114xCompress.UncompressFields | doc/si114x-compress.c:150-155 | for exponent e and fraction n the value is `(16+n) << (e-4)` when e ≥ 4, and `(16+n) >> (4-e)` otherwise |
| Si114xCompress.UncompressRange | doc/si114x-compress.c:125-156 | the highest set bit of the value is the exponent nibble, and the value is below 0x10000 |
| Si114xCompress.FractionMonotone | doc/si114x-compress.c:150-155 | within one exponent a larger fraction never decodes smaller |
| Si114xCompress.UncompressMonotone | doc/si114x-compress.c:125-156 | `Uncompress` is monotone over all 256 codes |
| Si114xCompress.UncompressExamples | doc/si114x-compress.c:53-116 | the worked examples: 9A→340, FF→F800, 08→1, 24→5, 3E→F, 40→10, 44→14, 50→20, 54→28, DF→15872 |
| Si114xCompress.HighestBit | doc/si114x-compress.c:225-234 | shifting right by the exponent found leaves exactly 1 |
| Si114xCompress.HighestBitRange | doc/si114x-compress.c:225-234 | the exponent is the index of the highest set bit |
| Si114xCompress.HighestBitUnique | doc/si114x-compress.c:225-234 | that index is the only one with this property |
| Si114xCompress.HighestBitOf16Bits | doc/si114x-compress.c:225-234 | for a 16-bit input it is at most 15 |
| Si114xCompress.Compress | doc/si114x-compress.c:202-289 | the loop-and-rounding procedure returns the low 8 bits of `(exponent << 4) \| nibble`, as the `uint8_t` return type does |
| Si114xCompress.CompressExamples | doc/si114x-compress.c:162-219 | 0→00, 1→08 and 16000→DF |
| Si114xCompress.CompressSmallRoundTrip | doc/si114x-compress.c:223-246 | for every input below 32 the exponent is the highest bit and `Uncompress(Compress(x)) == x` |
| Si114xCompress.SignificandCode | doc/si114x-compress.c:259-288 | an even significand is halved; an odd one rounds up; `63` carries into the exponent |
| Si114xCompress.DecodeRounded | doc/si114x-compress.c:259-288 | a rounded code without overflow decodes to the rounded significand shifted back |
| Si114xCompress.LargeCode | doc/si114x-compress.c:259-288 | for exponents 5 and up, the code is the rounded significand with the exponent |
| Si114xCompress.RoundedValue | doc/si114x-compress.c:259-288 | below 0xFC00, the code decodes to the input rounded on its 5th fraction bit |
| Si114xCompress.RoundedCodeFits | doc/si114x-compress.c:259-288 | below 0xFC00 the code fits a byte |
| Si114xCompress.SignificandNearest | doc/si114x-compress.c:273-285 | rounding up an odd significand stays within one unit of the last place |
| Si114xCompress.CompressRoundsToNearest | doc/si114x-compress.c:202-289 | for 32 ≤ x < 0xFC00, `Uncompress(Compress(x))` is within one unit of the last place, `2^(e-5)`, of x |
| Si114xCompress.ExactCode | doc/si114x-compress.c:202-289 | a value that is exactly representable compresses to its own code |
| Si114xCompress.UncompressCompressRoundTrip | doc/si114x-compress.c:125-289 | `Compress(Uncompress(b)) == b` for every code from 0x40 up |
| Si114xCompress.CompressWrapsAtTop | doc/si114x-compress.c:280-288 | from 0xFC00 up the carry makes the exponent 16, so the byte wraps to 00, which decodes to 0 |
| Si114xCompress.CompressAsWritten | doc/si114x-compress.c:280-288 | the code as written: the exponent and nibble packed and truncated to `uint8_t` |
| Si114xCompress.CompressNotMonotoneAsWritten | doc/si114x-compress.c:280-288 | `Compress(0xFBFF) == FF` but `Compress(0xFC00) == 00` |
| Si114xCompress.CompressSaturating | doc/si114x-compress.c:280-288 | the intended codec agrees with the C code when the code fits, and saturates at FF otherwise |
| Si114xCompress.CompressSaturatingBounds | doc/si114x-compress.c:202-289 | the saturating codec maps 0xFC00 and up to the largest code, and still rounds to nearest below it |
| Bytes.Slice | vicinity/i2cbase.py:22 | Python slicing: clamped bounds, and element i is `s[a+i]` |
| Bytes.Reverse | vicinity/iso15693.py:112 | `[::-1]`: same length, element i is `s[len-1-i]` |
| Bytes.ByteAt | vicinity/ntag5link.py:437 | indexing succeeds iff the index is in range, and is an IndexError otherwise |
| Bytes.Word | vicinity/tmp112.py:46 | `int.from_bytes(..., "big")` of up to two bytes |
| Bytes.SignedWord | vicinity/tmp117.py:58 | `int.from_bytes(..., signed=True)`: the two's-complement value of two bytes |
| Bytes.BigEndian16 | vicinity/tmp112.py:101 | `to_bytes(2, "big")` of a 16-bit value, which `Word` reads back |
| Bytes.IntToBytes2 | vicinity/iso15693.py:271-272 | `to_bytes(2, "big")` succeeds iff the value fits in 16 bits |
| Bytes.IntToBytes2RoundTrip | vicinity/iso15693.py:271-272 | the two bytes read back as the value |
| Bytes.BytesOf | vicinity/i2cbase.py:28 | `bytes([...])` succeeds iff every value is 0..255, and keeps every value |
| Bytes.BytesOfValues | vicinity/i2cbase.py:28 | `bytes(list(b)) == b` |
| Bytes.UpdateField | vicinity/tmp117.py:192-200 | one `&=`/`\|=` step computes exactly `FieldStep` |

## Left out

- `reader/pcscreader.py` beyond `transmit_pcsc`: reader enumeration, waiting for a card, the ATR and `cli_create_connect` are host I/O. Only the rule that a status word other than `90 00` is a failure is kept (`PcscIo`). The model has no connection state, so `transmit_pcsc`'s "Not connected to a card" exception (reader/pcscreader.py:30-31) is not modelled.
- The BER-TLV library: building is replaced by the hand-written TLVs (`ExchangeData`, a single data object); replies arrive already parsed into a map from tag to bytes. The library's own encoder and parser are not part of this model.
- `time.sleep` and the `print`s in the polling loops. The busy poll and the EEPROM poll never time out in the source; in the model they end only because each poll consumes one scripted reply.
- Floating point: the temperature conversions are exact rationals (`real`). `raw * 7.8125 / 1000` is modelled as `raw / 128`, and `(raw >> 4) * 62.5 / 1000` as `(raw >> 4) / 16`. The TMP117 cycle table uses exact values, 15.5 ms included. Rounding of Python floats is not modelled.
- The CLI and presentation files (`ntag5sensor.py`, `cli/argparser.py`, `cli/display.py`, `cli/graph.py`, `cli/heartbeat.py`) are not part of this model.
- Tmp117.Tmp117.ReadRegister: the driver's own `write_register` and `general_reset` are, byte for byte, the tunnel's, so the driver uses `I2cBase` for them. Its own `read_register` (length 2) is modelled and proved equal to the tunnel read (`ReadRegisterIsTunnelRead`).
- Exception messages become named `Error` constructors; the message texts are not modelled.
- Python dictionaries returned by the decoders become records, and string enumerations that the source only passes through become datatypes. Lookups with an `"unknown"` default are total, because every masked value has a name. `get_extended_system_info` builds 30 named booleans from the 4-byte command list; the model keeps the 4 bytes (`commandList`) and names the bits through `CapabilityBit`/`Supports` instead. An ISO/IEC 29167 crypto suite is kept as its suite number (`Iso29167(n)`) rather than as the name string of the source's table or its `"29167-<n+10> UNKNOWN"` default.
- Iso15693.ReadSingleBlockIo: the source computes `payload` and then returns the whole response; the model returns the whole response too and does not model the unused `payload`.
- Bytes.SignedWord is stated against the two bytes (two's complement), not against `Word`.
- The vendor-command arguments `address` (`ReadConfigBlockIo`, `ReadSramIo`, `WriteConfigBlockIo`), `ehMode`, `arbiterMode`, `useCase`, `gpio0In`, `gpio1In`, `current`, `voltage` and `edConfig` are typed `bv8`, so a Python `int` outside 0..255 cannot be passed. In the source such a value makes `bytes(...)` raise `ValueError`: in `write_config0/1/2` that happens after the page-37 read has been sent, in `write_eh_ed_config` and the reads before anything is sent. The model does not capture that failure.
- The other integer inputs (block numbers, counts, I2C register addresses and values, the TMP117 fields) are kept as `int`; values that `bytes([...])` or `to_bytes` cannot encode fail as `ValueError`/`OverflowError` (`ByteOutOfRange`, `IntTooBig`) at the point where the source raises them.
- Reader.ExchangeResult: checks the inner error flag with the corrected `CheckIsoError`, and so does every operation built on it (`ExchangeIo`, `Acr1552.TransmitIso15693` and all tag and sensor operations). The source as written raises NameError for error codes outside A0..DF; that behaviour is `ExchangeResultAsWritten`, and `ExchangeResultAsWrittenDiffers` states where the two differ.
- Si1143.GetInfoIo: names the part and the sequencer with the corrected `PartNameOf`/`SequencerNameOf`, and so does the method `Si1143.GetInfo`. As written both names are always "Unknown"; that behaviour is `GetInfoAsWrittenIo`, related to the corrected one by `GetInfoAsWrittenNamesNothing`.
- Tmp117.ApplyConfigTouchesOnlySuppliedFields: like the source, it assumes mode and averaging already lie inside their masks; values outside them can set other bits, and that case is not characterised.
- The Si114x header defines and the register-usage prose of the C file are documentation, not code.
- A command/response handshake for the Si1143 (parameter register, response polling) does not exist in the code and is not invented here.

Where the description of the system and the code disagree, the model follows the code:
- The protection condition is four flags, not two.
- `check_i2c_write_result` raises on every status except success, which returns `True`; no enumeration is returned.
- The four defects below are modelled as written in the `AsWritten` members. The operations that build on two of them use the corrected half; the lines above for `Reader.ExchangeResult` and `Si1143.GetInfoIo` say so.

## Findings

| source | as written | input that shows it | evidently intended | confidence | as-written member | corrected member |
|---|---|---|---|---|---|---|
| reader/acr1552.py:181-182 | the error-table lookup uses the unbound name `code`, so every ISO/IEC 15693 error outside A0..DF raises NameError | the reply data `01 12` (error flag set, "block locked") | raise the table's named error for the code in byte 1 | not executed | Reader.CheckIsoErrorAsWritten, Reader.BlockLockedAnswerAsWritten | Reader.CheckIsoError, Reader.CheckIsoErrorAsWrittenDiffers |
| vicinity/ntag5link.py:392-393 | `write_config2` uses `gpio0_pad_in`/`gpio1_pad_in`, but its parameters are `gpio0_in`/`gpio1_in`, so it raises NameError after reading the page and never writes | any call, e.g. the defaults on a page read as `00 00 00 00` | OR in `gpio0_in` and `gpio1_in` and write the page back | not executed | Ntag5Link.WriteConfig2AsWrittenNeverWrites | Ntag5Link.Ntag5Link.WriteConfig2, Ntag5Link.Config2RoundTrip |
| vicinity/si1143.py:81-105 | the `bytes` returned by `read_register` are compared with `int` constants, which is never equal in Python, so both names are always "Unknown" | part id `43`, sequencer id `09` | compare byte 0 of the read | not executed | Si1143.AsWrittenAlwaysUnknown, Si1143.AsWrittenMissesSi1143 | Si1143.PartNameOf, Si1143.IntendedLookupRecognisesIds |
| doc/si114x-compress.c:280-288 | for inputs ≥ 0xFC00 the rounding carry makes the exponent 16, and the `uint8_t` result wraps to 0x00 (which decodes to 0) | 0xFC00 | saturate at 0xFF, the largest code | not executed | Si114xCompress.CompressWrapsAtTop, Si114xCompress.CompressNotMonotoneAsWritten | Si114xCompress.CompressSaturating, Si114xCompress.CompressSaturatingBounds |

# I2CBATT register-access protocol, in Dafny

A model of the I2CBATT Arduino driver for the TI bq2754x fuel-gauge family.
The driver reaches the gauge over a two-wire (I2C) bus. Every accessor does
the same thing: it selects what it wants to read, then it reads it. It selects
by writing a register pointer, a Control() subcommand or a data-flash block.
It reads one byte, a low/high byte pair, or the 31-byte manufacturer block.
The model states exactly which bus events each accessor issues. It states what
the gauge makes of those events and what the accessor makes of the bytes that
come back. It proves these properties for every input.

Modules:

- `Bits` (bits.dfy): uint8_t, uint16_t and short as integer subset types. It
  holds the decoders the getters apply: little-endian word assembly, bit
  tests, narrowing to the low byte, and the two's-complement reinterpretation.
  Shifts, masks and `|` are applied only to non-negative values, so they are
  written arithmetically.
- `Registers` (registers.dfy): the register map, the Control() subcommands
  and the two bit enumerations, with their positions.
- `TwoWire` (two_wire.dfy): the bus, as an abstract `Wire` object. It has a
  log of write transactions and read requests, a transmit buffer and a
  receive queue. What the devices answer comes from outside the program. It
  is given as two functions fixed when the bus is created: the bytes sent
  back for a read request, and the status reported when a write closes.
- `Protocol` (protocol.dfy): the event sequences the driver issues. It also
  gives the gauge's reading of the log: which register the gauge points at
  and which bytes it holds. It defines what a pair, bit or block read yields
  for the bytes that arrived.
- `Driver` (driver.dfy): the driver class with its bus handle and its block
  buffer.

The model follows the code where the code and its documentation differ:

- The block buffer and the block request are `0x5F - 0x40` = 31 bytes, not
  the 32-byte window 0x40..0x5F. Register 0x5F is never read.
- The driver calls `endTransmission` after every `requestFrom` without a
  `beginTransmission`. The model treats this as closing a write to the last
  address with no bytes. So every read ends with an address-only write to
  the gauge. A subcommand read is three writes, one 2-byte read and then that
  empty write, not three writes and one read.
- A block read copies 31 bytes once any byte has arrived. Bytes beyond those
  that arrived come from reading an empty queue, and the model leaves them
  unspecified. It does not keep the buffer's old contents there.

## Model

| member | source | states |
|---|---|---|
| Bits.Assemble | src/I2CBATT.cpp:140 | `(high << 8) \| low` is the word whose low byte is `low` and whose high byte is `high` |
| Bits.AssembleBytes | src/I2CBATT.cpp:140 | every 16-bit word is the assembly of its own low and high byte (with Assemble: a bijection between byte pairs and words) |
| Bits.AssembleBits | src/I2CBATT.cpp:140 | the 16 bits of an assembled word are the 8 bits of the low byte followed by the 8 bits of the high byte |
| Bits.AssembleTestBit | src/I2CBATT.cpp:192-194 | bit k of an assembled word is bit k of the low byte for k < 8 and bit k - 8 of the high byte otherwise |
| Bits.ShiftRight | src/I2CBATT.cpp:192-194 | `w >> k` on an unsigned word is w divided by 2^k, rounded down, and never exceeds w |
| Bits.TestBit | src/I2CBATT.cpp:192-194 | `(w >> k) & 1` is `(w / 2^k) % 2 == 1`, and it is bit k of the binary expansion of w (BitsOf), whose bits give w back (FromBitsOf) |
| Bits.FromBitsOf | src/I2CBATT.cpp:192-194 | the 16 bits that the bit tests read from a word determine the word: reassembling them gives it back |
| Bits.ToInt16 | src/I2CBATT.cpp:461-464 | the uint16_t-to-short conversion yields a value in -32768..32767 congruent to the word modulo 65536 |
| Bits.FromInt16 | src/I2CBATT.cpp:484-487 | inverse of the uint16_t-to-short reinterpretation made by the `return` at :486 (the source itself never converts back); it maps each short to the word congruent to it modulo 65536, and the signed getters state their result through it |
| Bits.LowByte | src/I2CBATT.cpp:507-510 | the narrowing of the word to `byte` in getStateOfCharge keeps the value modulo 256: the result is congruent to the word modulo 256 |
| Bits.Int16RoundTrip | src/I2CBATT.cpp:461-464 | the two conversions are inverse: every word and every short survives the round trip |
| Bits.Int16Sign | src/I2CBATT.cpp:457-464 | a current or power is negative exactly when bit 15 of the word read is set |
| Registers.ControlStatusFlag.Position | src/I2CBATT.h:43-60 | each CONTROL_STATUS flag's value is its declaration position, QEN = 0 up to SE = 15, all below 16 |
| Registers.ControlStatusFlagAt | src/I2CBATT.h:43-60 | every bit position 0..15 of CONTROL_STATUS belongs to one declared flag |
| Registers.ControlStatusPositionsDistinct | src/I2CBATT.h:43-60 | two CONTROL_STATUS flags share a bit position only if they are the same flag |
| Registers.FlagsBit.Position | src/I2CBATT.h:77-94 | each Flags() bit's value is its declaration position: DSG = 0, SOCF = 1, SOC1 = 2, CHG = 3, IMAX = 4, CHG_SUS = 7, FC = 9, CHG_INH = 11, BATLOW = 12, BATHI = 13, all below 16 |
| Registers.FlagsBitAt | src/I2CBATT.h:77-94 | every bit position 0..15 of Flags() belongs to one declared bit, reserved or not |
| Registers.FlagsPositionsDistinct | src/I2CBATT.h:77-94 | two Flags() bits share a position only if they are the same bit |
| Registers.FlagsReservedPositions | src/I2CBATT.h:83-93 | the reserved slots are exactly positions 5, 6, 8, 10, 14 and 15 |
| Registers.SubcommandsDistinct | src/I2CBATT.h:41-69 | the control-status (0x00, 0x00), device-type (0x00, 0x01), firmware (0x00, 0x02) and hardware (0x00, 0x03) payload pairs and their codes are pairwise distinct |
| Registers.WordRegistersArePairs | src/I2CBATT.h:71-110 | every word register (0x06 ... 0x3C) is even and at most 0xFE, so it starts a low/high pair |
| Registers.BlockBufferOneShort | src/I2CBATT.h:118-126 | the block buffer is 0x5F - 0x40 = 31 bytes, one less than the 32 addresses 0x40..0x5F |
| Registers.CommandLayout | src/I2CBATT.h:34-121 | the address 0x55 fits in 7 bits, block indices 1, 2, 3 are distinct, 0x3F sits just below the window base 0x40, the checksum 0x60 just above the window top 0x5F, and Control() is the pair 0x00/0x01 |
| Protocol.PointerSelectEffect | src/I2CBATT.cpp:69-78 | after the one-byte write `[reg]` the gauge points at reg |
| Protocol.ControlWriteEffect | src/I2CBATT.cpp:147-170 | after the three subcommand writes the gauge points at 0x00 again and holds high in 0x00 and low in 0x01, so the subcommand it receives is `low * 256 + high` |
| Protocol.SubcommandDelivered | src/I2CBATT.h:62-69 | the payload pair of each subcommand makes the gauge receive that subcommand's code (0x0000 ... 0x0003); the same pair written in swapped order would not, for the three whose bytes differ |
| Protocol.SubcommandPolled | src/I2CBATT.cpp:184-187 | a read made right after a subcommand is answered from register 0x00 while the gauge holds that subcommand's code |
| Protocol.BlockSelectEffect | src/I2CBATT.cpp:82-97 | after a block select the gauge holds the block index in 0x3F and points at the window base 0x40, whatever the index |
| Protocol.QuietEventKeepsGauge | src/I2CBATT.cpp:175-179 | a read request or an address-only write changes neither the gauge's pointer nor any register it holds |
| Protocol.PollKeepsGauge | src/I2CBATT.cpp:128-138 | a read as the driver makes it, request then closing write, leaves the gauge's pointer and registers as they were |
| Protocol.PolledAfter | src/I2CBATT.cpp:445-448 | a read made after some writes is answered from the register those writes left selected |
| Protocol.PairReadDetermined | src/I2CBATT.cpp:124-140 | when zero or two bytes arrive the pair read is determined: 0, or the word whose low byte arrived first |
| Protocol.PairReadLowByte | src/I2CBATT.cpp:507-510 | the low byte of a pair read is the first byte received, or 0 when nothing arrived |
| Protocol.PairReadBit | src/I2CBATT.cpp:184-299 | bit k of a pair read is bit k of the first byte (k < 8) or bit k - 8 of the second, and false when nothing arrived |
| Protocol.ControlStatusFlagsDetermineWord | src/I2CBATT.cpp:184-299 | two CONTROL_STATUS words on which all sixteen flag getters agree are equal: the getters together read the whole word |
| Protocol.FlagsBitsDetermineWord | src/I2CBATT.cpp:367-440 | two Flags() words that agree on all sixteen positions, reserved ones included, are equal |
| Protocol.CompleteBlockRead | src/I2CBATT.cpp:40-53 | when all 31 bytes arrive the block buffer holds exactly them, in the order they arrived |
| Driver.I2CBatt.constructor | src/I2CBATT.cpp:33 | the driver keeps the bus it is given and a fresh 31-byte block buffer |
| Driver.I2CBatt.PullBlockData | src/I2CBATT.cpp:40-53 | requests 31 bytes; if any arrived, overwrites buffer indices 0..30 in read order (the arrived bytes first), otherwise leaves the buffer unchanged; then closes an empty write |
| Driver.I2CBatt.SendFirstRegister | src/I2CBATT.cpp:69-78 | adds exactly the one write `[reg]` to the gauge, which then points at reg |
| Driver.I2CBatt.SendCommandManufactureBlock | src/I2CBATT.cpp:82-97 | adds exactly `[0x3F, command]` then `[0x40]`; the gauge holds the block index and points at the window base |
| Driver.I2CBatt.RequestSingleRegister | src/I2CBATT.cpp:103-118 | requests one byte and returns it, or 0 when none arrived |
| Driver.I2CBatt.RequestPairRegisters | src/I2CBATT.cpp:124-141 | requests two bytes; returns 0 when none arrived, else a word whose low byte is the first byte received and, when a second arrived, whose high byte is the second |
| Driver.I2CBatt.WriteControlAddresses | src/I2CBATT.cpp:147-170 | adds exactly three writes, in order: `[0x00, high]`, `[0x01, low]`, `[0x00]` |
| Driver.I2CBatt.IsConnected | src/I2CBATT.cpp:175-179 | adds one write with no payload and returns true exactly when its status is 0; the gauge's pointer and registers are unchanged |
| Driver.I2CBatt.GetControlStatus | src/I2CBATT.cpp:184-187 | re-issues the control-status subcommand, then one 2-byte read answered from 0x00 while the gauge holds code 0x0000; returns the pair read |
| Driver.I2CBatt.GetFlagSEPinIsActive | src/I2CBATT.cpp:192-194 | re-issues the whole control-status subcommand and word read, then returns CONTROL_STATUS bit 15 (SE): bit 7 of the second (high) byte received, unspecified when only one byte arrived, false when nothing arrived |
| Driver.I2CBatt.GetFlagIsFullAccessSealedMode | src/I2CBATT.cpp:199-201 | re-issues the whole control-status subcommand and word read, then returns CONTROL_STATUS bit 14 (FAS): bit 6 of the second (high) byte received, unspecified when only one byte arrived, false when nothing arrived |
| Driver.I2CBatt.GetFlagIsSealedMode | src/I2CBATT.cpp:206-208 | re-issues the whole control-status subcommand and word read, then returns CONTROL_STATUS bit 13 (SS): bit 5 of the second (high) byte received, unspecified when only one byte arrived, false when nothing arrived |
| Driver.I2CBatt.GetFlagCalibrationFunctionIsActive | src/I2CBATT.cpp:213-215 | re-issues the whole control-status subcommand and word read, then returns CONTROL_STATUS bit 12 (CALMODE): bit 4 of the second (high) byte received, unspecified when only one byte arrived, false when nothing arrived |
| Driver.I2CBatt.GetFlagCoulombCounterCalibrationRoutineIsActive | src/I2CBATT.cpp:220-222 | re-issues the whole control-status subcommand and word read, then returns CONTROL_STATUS bit 11 (CCA): bit 3 of the second (high) byte received, unspecified when only one byte arrived, false when nothing arrived |
| Driver.I2CBatt.GetFlagBoardCalibrationRoutineIsActive | src/I2CBATT.cpp:227-229 | re-issues the whole control-status subcommand and word read, then returns CONTROL_STATUS bit 10 (BCA): bit 2 of the second (high) byte received, unspecified when only one byte arrived, false when nothing arrived |
| Driver.I2CBatt.GetFlagQMAXUpdate | src/I2CBATT.cpp:234-236 | re-issues the whole control-status subcommand and word read, then returns CONTROL_STATUS bit 9 (QMAXUPDATE): bit 1 of the second (high) byte received, unspecified when only one byte arrived, false when nothing arrived |
| Driver.I2CBatt.GetFlagHDQInterruptFunctionIsActive | src/I2CBATT.cpp:241-243 | re-issues the whole control-status subcommand and word read, then returns CONTROL_STATUS bit 8 (HOSTIE): bit 0 of the second (high) byte received, unspecified when only one byte arrived, false when nothing arrived |
| Driver.I2CBatt.GetFlagShutdownCommandIsSent | src/I2CBATT.cpp:248-250 | re-issues the whole control-status subcommand and word read, then returns CONTROL_STATUS bit 7 (SHUTDWN): bit 7 of the first (low) byte received, false when nothing arrived |
| Driver.I2CBatt.GetFlagRequestHibernateFromSleepMode | src/I2CBATT.cpp:255-257 | re-issues the whole control-status subcommand and word read, then returns CONTROL_STATUS bit 6 (HIBERNATE): bit 6 of the first (low) byte received, false when nothing arrived |
| Driver.I2CBatt.GetFlagIsFullSleepMode | src/I2CBATT.cpp:262-264 | re-issues the whole control-status subcommand and word read, then returns CONTROL_STATUS bit 5 (FULLSLEEP): bit 5 of the first (low) byte received, false when nothing arrived |
| Driver.I2CBatt.GetFlagIsSleepMode | src/I2CBATT.cpp:269-271 | re-issues the whole control-status subcommand and word read, then returns CONTROL_STATUS bit 4 (SLEEP): bit 4 of the first (low) byte received, false when nothing arrived |
| Driver.I2CBatt.GetFlagImpedanceTrackAlgorithm | src/I2CBATT.cpp:276-278 | re-issues the whole control-status subcommand and word read, then returns CONTROL_STATUS bit 3 (LDMD): bit 3 of the first (low) byte received, false when nothing arrived |
| Driver.I2CBatt.GetFlagRaTableUpdatesDisabled | src/I2CBATT.cpp:283-285 | re-issues the whole control-status subcommand and word read, then returns CONTROL_STATUS bit 2 (RUP_DIS): bit 2 of the first (low) byte received, false when nothing arrived |
| Driver.I2CBatt.GetFlagCellVoltagesOK | src/I2CBATT.cpp:290-292 | re-issues the whole control-status subcommand and word read, then returns CONTROL_STATUS bit 1 (VOK): bit 1 of the first (low) byte received, false when nothing arrived |
| Driver.I2CBatt.GetFlagQmaxUpdatesEnabled | src/I2CBATT.cpp:297-299 | re-issues the whole control-status subcommand and word read, then returns CONTROL_STATUS bit 0 (QEN): bit 0 of the first (low) byte received, false when nothing arrived |
| Driver.I2CBatt.GetDeviceType | src/I2CBATT.cpp:304-307 | re-issues the device-type subcommand, then one 2-byte read answered from 0x00 while the gauge holds code 0x0001; returns the pair read |
| Driver.I2CBatt.GetVoltageMilli | src/I2CBATT.cpp:352-355 | selects 0x08, then one 2-byte read answered from 0x08; returns the pair read |
| Driver.I2CBatt.GetFlags | src/I2CBATT.cpp:367-370 | selects 0x0A, then one 2-byte read answered from 0x0A; returns the pair read |
| Driver.I2CBatt.GetFlagBatteryHighIndicating | src/I2CBATT.cpp:375-377 | re-selects 0x0A and re-reads the word, then returns Flags() bit 13 (BATHI): bit 5 of the second (high) byte received, unspecified when only one byte arrived, false when nothing arrived |
| Driver.I2CBatt.GetFlagBatteryLowIndicating | src/I2CBATT.cpp:382-384 | re-selects 0x0A and re-reads the word, then returns Flags() bit 12 (BATLOW): bit 4 of the second (high) byte received, unspecified when only one byte arrived, false when nothing arrived |
| Driver.I2CBatt.GetFlagChargeInhibitindicates | src/I2CBATT.cpp:389-391 | re-selects 0x0A and re-reads the word, then returns Flags() bit 11 (CHG_INH): bit 3 of the second (high) byte received, unspecified when only one byte arrived, false when nothing arrived |
| Driver.I2CBatt.GetFlagFullChargedIsDetected | src/I2CBATT.cpp:396-398 | re-selects 0x0A and re-reads the word, then returns Flags() bit 9 (FC): bit 1 of the second (high) byte received, unspecified when only one byte arrived, false when nothing arrived |
| Driver.I2CBatt.GetFlagChargeSuspend | src/I2CBATT.cpp:403-405 | re-selects 0x0A and re-reads the word, then returns Flags() bit 7 (CHG_SUS): bit 7 of the first (low) byte received, false when nothing arrived |
| Driver.I2CBatt.GetFlagIndicatesComputedImax | src/I2CBATT.cpp:410-412 | re-selects 0x0A and re-reads the word, then returns Flags() bit 4 (IMAX): bit 4 of the first (low) byte received, false when nothing arrived |
| Driver.I2CBatt.GetFlagChargingAllowed | src/I2CBATT.cpp:417-419 | re-selects 0x0A and re-reads the word, then returns Flags() bit 3 (CHG): bit 3 of the first (low) byte received, false when nothing arrived |
| Driver.I2CBatt.GetFlagStateOfChargeThreshold1 | src/I2CBATT.cpp:424-426 | re-selects 0x0A and re-reads the word, then returns Flags() bit 2 (SOC1): bit 2 of the first (low) byte received, false when nothing arrived |
| Driver.I2CBatt.GetFlagStateOfChargeThresholdFinal | src/I2CBATT.cpp:431-433 | re-selects 0x0A and re-reads the word, then returns Flags() bit 1 (SOCF): bit 1 of the first (low) byte received, false when nothing arrived |
| Driver.I2CBatt.GetFlagDischargingDetected | src/I2CBATT.cpp:438-440 | re-selects 0x0A and re-reads the word, then returns Flags() bit 0 (DSG): bit 0 of the first (low) byte received, false when nothing arrived |
| Driver.I2CBatt.GetRemainingCapacity | src/I2CBATT.cpp:445-448 | selects 0x10, then one 2-byte read answered from 0x10; returns the pair read |
| Driver.I2CBatt.GetFullChargeCapacity | src/I2CBATT.cpp:453-456 | selects 0x12, then one 2-byte read answered from 0x12; returns the pair read |
| Driver.I2CBatt.GetAverageCurrentMilli | src/I2CBATT.cpp:461-464 | selects 0x14, then one 2-byte read; returns the pair read reinterpreted as a short (w when w < 32768, w - 65536 otherwise) |
| Driver.I2CBatt.GetTimeToEmpty | src/I2CBATT.cpp:476-479 | selects 0x16, then one 2-byte read answered from 0x16; returns the pair read |
| Driver.I2CBatt.GetAveragePowerMilli | src/I2CBATT.cpp:484-487 | selects 0x24, then one 2-byte read; returns the pair read reinterpreted as a short |
| Driver.I2CBatt.GetCycleCount | src/I2CBATT.cpp:499-502 | selects 0x2A, then one 2-byte read answered from 0x2A; returns the pair read |
| Driver.I2CBatt.GetStateOfCharge | src/I2CBATT.cpp:507-510 | selects 0x2C, reads two bytes and keeps only the low byte of the word: the first byte received, or 0 |
| Driver.I2CBatt.GetDesignCapacity | src/I2CBATT.cpp:515-518 | selects 0x3C, then one 2-byte read answered from 0x3C; returns the pair read |
| Driver.I2CBatt.GetManufacturerInfoBlockA | src/I2CBATT.cpp:523-527 | selects block 1, then one 31-byte read answered from the window base 0x40; the buffer is filled as PullBlockData states and returned |
| Driver.I2CBatt.GetManufacturerInfoBlockB | src/I2CBATT.cpp:532-536 | selects block 2, then one 31-byte read answered from the window base 0x40; the buffer is filled as PullBlockData states and returned |
| Driver.I2CBatt.GetManufacturerInfoBlockC | src/I2CBATT.cpp:541-545 | selects block 3, then one 31-byte read answered from the window base 0x40; the buffer is filled as PullBlockData states and returned |
| Driver.I2CBatt.GetBlockDataChecksum | src/I2CBATT.cpp:550-553 | selects 0x60, then one 1-byte read answered from 0x60; returns the byte, or 0 when none arrived |

## Left out

- `begin` (src/I2CBATT.cpp:60-65): bus clock and initialisation, no logic.
- The constructor's fallback to the global `Wire` object (src/I2CBATT.cpp:33): the model's constructor always receives a bus.
- Floating-point getters: getFirmwareVersion, getHardwareVersion, getTemperatureKelvin, getTemperatureCelsius, getTemperatureFahrenheit, getVoltage, getAverageCurrent and getAveragePower (src/I2CBATT.cpp:312-347, 360-362, 469-471, 492-494). Dafny has no float type to match them.
- The `char*` view of the block buffer returned by the manufacturer-block getters, and any null termination: the model returns the buffer's bytes.
- Arduino's `Wire` library is not part of this model. Only the behaviour the driver relies on is modelled. `read()` on an empty queue returns an unspecified byte. `requestFrom` replaces the receive queue with at most the requested number of answered bytes. `endTransmission` closes a write to the last address given to `beginTransmission`.
- The gauge's own behaviour is reduced to what the log shows. A write `[r, d0, ...]` points it at r and stores d0, ... from r on. The pointer moving during a multi-byte read, NACKed writes and what the gauge answers are not modelled; answers are inputs.
- Other devices on the same bus, and interleaving between a pointer write and its read: concurrency that the code does not handle.
- Driver.I2CBatt.WriteControlAddresses: its own contract gives only the three writes. What the gauge makes of them is stated by Protocol.ControlWriteEffect, which holds for every log. Stating it in the method contract as well made every caller's proof too costly.

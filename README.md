# Gnublin I2C module drivers in Dafny

This project models the drivers of the Gnublin board's I2C extension modules:

- the SC16IS7x0 UART, in its split form: a UART base class, plus an
  SC16IS750 subclass that adds the eight GPIO pins;
- the older single-class SC16IS750 driver, which differs from the split
  design in a handful of methods;
- the MCP230xx port-expander base class, with its MCP23017 (two ports,
  sixteen pins) and MCP23009 (one port) front ends;
- the HD44780 character-LCD module;
- the SHT2x temperature and humidity sensor.

Every driver talks to its chip only through `send` and `receive` calls on an
I2C object. The model (`i2c.dfy`) replaces that object with:

- a log of the transactions a driver attempts, most recent last;
- an oracle that decides which transactions the device refuses, and what a
  register that the hardware updates on its own (a FIFO level, the line
  status, the input pins) reads at that moment.

The drivers are classes whose fields (error flag, interrupt callbacks, pin
latch, FIFO shadow, cursor column) change in place. They are modelled as
Dafny classes with `modifies` clauses. Each method states:

- the transactions it adds to the log;
- its return value;
- its new fields.

These are stated in terms of functions of the oracle and the log. Lemmas
then say what those transactions do to the chip.

- **SC16IS7x0 chip state.** The register file is a record. `Replay` applies a
  log to it, using the register-bank rules the driver's header describes:
  - DLL and DLH are reachable while LCR[7] is set;
  - EFR, XON and XOFF are reachable while LCR is 0xBF;
  - TCR and TLR are reachable while MCR[2] and EFR[4] are set.

  The lemmas of `sc16_scripts.dfy` and `sc16_legacy.dfy` state the register
  effect of each configuration sequence.
- **MCP230xx.** Register addresses come from a bank table and the register
  shift the constructor chooses. Lemmas state the following:
  - the addresses a device can reach are distinct;
  - a read-modify-write changes one bit only;
  - each interrupt mode programs the chip as its name says;
  - pollInt counts the flags it reads and calls the callbacks in order.
- **HD44780.** The LCD driver (GPIO pins or MCP23017) is abstracted to an
  oracle that accepts or refuses each byte. `Display.calls` records the bytes
  handed to it. Lemmas state what a printed row then shows. A separate
  `PinDriver` class models the GPIO driver's pin writes and proves that
  writeByte hands the LCD the byte as two nibbles.
- **SHT2x.** The CRC-8 (polynomial 0x131) is modelled byte by byte. Lemmas
  prove the following about it:
  - it detects every single-byte error;
  - a frame followed by its own CRC checks to zero;
  - the driver's 9-bit polynomial arithmetic in a byte is the 8-bit shift
    with 0x31.

  The conversions use real numbers.

For each discrepancy listed under "## Findings", the model keeps both: a
member that models the code as written, and a corrected member that the rest
of the model uses. The SC16IS7x0 configuration methods that write inside the
enhanced-register window are modelled as written. Their effect lemmas state
which register each byte reaches under the header's bank rules (see
"## Left out").

Modules by file:

| file | module | contents |
|---|---|---|
| `bytes.dfy` | `Bytes` | single-bit masks, read-modify-write of one bit, pin levels |
| `seqs.dfy` | `Seqs` | sequence associativity |
| `gnublin.dfy` | `Gnublin` | the direction strings and pin levels shared by all drivers |
| `i2c.dfy` | `I2c` | the transaction log, the oracle and the bus class |
| `sc16_registers.dfy` | `Sc16Registers` | SC16IS7x0 sub-addresses, constants, register file and bank rules |
| `sc16_bus.dfy` | `Sc16Bus` | the register file a log leaves |
| `sc16_encodings.dfy` | `Sc16Encodings` | divisor, TCR/TLR packing, interrupt identification, GPIO flags |
| `sc16_scripts.dfy` | `Sc16Scripts` | the register sequences of the configuration methods and their effect |
| `sc16_uart.dfy` | `Sc16Uart` | class `Uart`: the SC16IS7x0 base driver |
| `sc16_gpio.dfy` | `Sc16Gpio` | class `Gpio`: the GPIO part of the split SC16IS750 driver |
| `sc16_legacy.dfy` | `Sc16Legacy` | class `Legacy`: the methods where the single-class SC16IS750 driver differs |
| `mcp230xx.dfy` | `Mcp230xx` | class `PortExpander` and the pinIntMode, init and pollInt specifications |
| `mcp23017.dfy` | `Mcp23017` | the two-port front end |
| `mcp23009.dfy` | `Mcp23009` | class `Device`: the one-port front end |
| `hd44780.dfy` | `Hd44780` | classes `PinDriver` and `Display` |
| `sht2x.dfy` | `Sht2x` | CRC-8, conversions and class `Sensor` |

## Model

| member | source | states |
|---|---|---|
| Bytes.WithBitSpec | module_mcp230xx/module_mcp230xx.cpp:328-387 | a one-bit read-modify-write sets that bit to the requested level and keeps the other seven bits |
| Bytes.PinShift | module_mcp230xx/module_mcp230xx.cpp:410-437 | shifting a pin to bit 7 and masking with 0x80 yields 0x80 exactly when the pin is set and 0 otherwise |
| Bytes.ShiftLevel | module_sc16is7x0/module_sc16is750.cpp:305-341 | the shift-and-mask extraction returns the pin's level, 0 or 1, so the "bitshift failed" branch is unreachable |
| Sc16Registers.SubAddressesAreShiftedIndices | module_sc16is7x0/module_sc16is7x0.h:141-166 | every sub-address is its register index times 8, a multiple of 8 no larger than 0x78 |
| Sc16Registers.SharedSubAddresses | module_sc16is7x0/module_sc16is7x0.h:141-166 | which registers share a sub-address (THR/RHR/DLL, IER/DLH, IIR/FCR/EFR, MCR/XON1, LSR/XON2, MSR/TCR/XOFF1, SPR/TLR/XOFF2), and LCR shares its own with none |
| Sc16Registers.BaudConstants | module_sc16is7x0/module_sc16is7x0.h:76-88 | the baud constants increase strictly from 300 to 230400; the crystal is 14745600 Hz |
| Sc16Registers.InterruptIdentifications | module_sc16is7x0/module_sc16is7x0.h:117-124 | the eight interrupt identifications are distinct and lie inside IIR[5:1] |
| Sc16Registers.InterruptEnableMasks | module_sc16is7x0/module_sc16is7x0.h:131-138 | each IER enable constant is its own single bit, and the default enables nothing |
| Sc16Registers.FormatCode | module_sc16is7x0/module_sc16is7x0.h:91-114 | an LCR format code never touches LCR[7:5] |
| Sc16Registers.DecodeFormatCode | module_sc16is7x0/module_sc16is7x0.h:91-114 | decoding the LCR code of any valid format gives the same word length, stop bits and parity back |
| Sc16Registers.FormatConstants | module_sc16is7x0/module_sc16is7x0.h:91-114 | each of the 32 UART_xYz constants is the LCR code of the format its name spells |
| Sc16Registers.WriteThenRead | module_sc16is7x0/module_sc16is7x0.h:141-166 | reading back a read/write register, in the bank that is open, returns what was just written to it |
| Sc16Registers.ReadOnlyWrite | module_sc16is7x0/module_sc16is7x0.h:141-166 | a write at TXLVL, RXLVL or the unused index 0x0D leaves the register file unchanged |
| Sc16Bus.PolledKeepsRegisters | module_sc16is7x0/module_sc16is7x0.cpp:1317-1319 | a busy-wait made of reads leaves every stored register as it was |
| Sc16Bus.PolledWritesNothing | module_sc16is7x0/module_sc16is7x0.cpp:1317-1319 | a busy-wait adds nothing to the bytes written |
| Sc16Encodings.DivisorRange | module_sc16is7x0/module_sc16is7x0.cpp:264-276 | for every accepted baud rate the divisor lies in 4..3072 and fits the 16-bit DLH:DLL pair |
| Sc16Encodings.DivisorSplit | module_sc16is7x0/module_sc16is7x0.cpp:274-276 | DLH:DLL recombine into the computed divisor for every divisor below 65536 |
| Sc16Encodings.TcrByteFields | module_sc16is7x0/module_sc16is7x0.cpp:561 | for levels up to 60 the TCR byte holds resume/4 in bits 7:4 and halt/4 in bits 3:0 |
| Sc16Encodings.FlowTriggersWrap | module_sc16is7x0/module_sc16is7x0.cpp:494-561 | a resume level of 64 passes the range tests, and its quotient 16 wraps to 0 in TCR[7:4] |
| Sc16Encodings.RxTlrFields | module_sc16is7x0/module_sc16is7x0.cpp:847 | the receive trigger goes to TLR[7:4] and TLR[3:0] keeps its old value |
| Sc16Encodings.TxTlrFields | module_sc16is7x0/module_sc16is7x0.cpp:942-1106 | the transmit trigger goes to TLR[3:0] and TLR[7:4] keeps its old value |
| Sc16Encodings.TxTlrSpill | module_sc16is7x0/module_sc16is7x0.cpp:961-967 | the range test `(level < 4) && (level > 60)` never holds, so a transmit level of 64 spills into the receive nibble |
| Sc16Encodings.IntIdOfHeaderValues | module_sc16is7x0/module_sc16is7x0.cpp:1516-1534 | whichInt maps an IIR value with bit 0 clear to each header identification it carries, and an IIR value with bit 0 set to 0 |
| Sc16Encodings.ActionsCompared | module_sc16is7x0/module_sc16is7x0.cpp:1544-1599 | the UART and GPIO pollInt switches agree except on RLS, RTOUT and PINS, and the UART switch rejects INT_PINS |
| Sc16Encodings.DefinedIdsAccepted | module_sc16is7x0/module_sc16is7x0.cpp:1544-1599 | an identification the header defines, other than the ones the switch lacks, never reaches the reject branch |
| Sc16Encodings.IntFlagsSpec | module_sc16is7x0/module_sc16is750.cpp:563 | a pin is flagged exactly when it is an input, its interrupt is enabled, and its level differs from the latch |
| Sc16Encodings.IntFlagsSame | module_sc16is7x0/module_sc16is750.cpp:538-567 | flags computed against the state just latched are all clear |
| Sc16Scripts.ReadsStored | module_sc16is7x0/module_sc16is7x0.h:141-166 | the reads of the configuration scripts return stored contents: LCR and IOCTRL always, MCR outside the enhanced bank, EFR and XOFF2 inside it |
| Sc16Scripts.EnterEffect | module_sc16is7x0/module_sc16is7x0.cpp:363-389 | opening the enhanced window leaves LCR at 0xBF with EFR[4] set |
| Sc16Scripts.LeaveEffect | module_sc16is7x0/module_sc16is7x0.cpp:402-414 | closing the window puts the saved EFR and LCR back |
| Sc16Scripts.SoftResetEffect | module_sc16is7x0/module_sc16is7x0.cpp:234-254 | softReset sets IOCTRL[3] and changes no other register |
| Sc16Scripts.BaudEffect | module_sc16is7x0/module_sc16is7x0.cpp:264-315 | setBaudRate stores the divisor bytes in DLL and DLH, LCR ends as it started, and nothing else changes |
| Sc16Scripts.FormatEffect | module_sc16is7x0/module_sc16is7x0.cpp:325-345 | setDataFormat leaves LCR equal to the format code and changes nothing else |
| Sc16Scripts.ModemEffect | module_sc16is7x0/module_sc16is7x0.cpp:353-417 | the MCR write is made while LCR is 0xBF, so it lands in XON1; MCR, LCR and EFR end as they were |
| Sc16Scripts.FlowEffect | module_sc16is7x0/module_sc16is7x0.cpp:428-468 | setFlowControl leaves EFR equal to the flow code with LCR restored |
| Sc16Scripts.TriggersEffect | module_sc16is7x0/module_sc16is7x0.cpp:479-583 | the TCR byte is written while LCR is 0xBF, so it lands in XOFF1; LCR and EFR end as they were |
| Sc16Scripts.InterruptEffect | module_sc16is7x0/module_sc16is7x0.cpp:593-664 | the upper nibble written inside the window lands in DLH; with LCR[7] clear on entry, IER ends holding the whole value |
| Sc16Scripts.TriggerLevelEffect | module_sc16is7x0/module_sc16is7x0.cpp:767-931 | inside the window the TLR sub-address is XOFF2, which is read and rewritten, and the FCR byte reaches EFR before the EFR restore overwrites it |
| Sc16Scripts.FcrEffect | module_sc16is7x0/module_sc16is7x0.cpp:674-756 | outside the enhanced bank an FCR write stores FCR and nothing else |
| Sc16Scripts.LoopbackEffect | module_sc16is7x0/module_sc16is7x0.cpp:1264-1284 | enableLoopback sets MCR[4] and changes no other register |
| Sc16Uart.ReadCount | module_sc16is7x0/module_sc16is7x0.cpp:1447-1467 | read returns the smaller of RXLVL and the requested length, and the burst asks for exactly that many bytes |
| Sc16Uart.ReceivedEventFrom | module_sc16is7x0/module_sc16is7x0.cpp:1565-1577 | the data callback receives the bytes read followed by a NUL, with the length available + 1 |
| Sc16Uart.ChunkProgress | module_sc16is7x0/module_sc16is7x0.cpp:1368-1400 | with the `<= 0` wait each chunk is non-empty, no larger than the space read, and the bytes left strictly decrease |
| Sc16Uart.FailedLevelAsWritten | module_sc16is7x0/module_sc16is7x0.cpp:1370-1380 | with the `== 0` wait a failed TXLVL read gives a chunk of -1 bytes, and the bytes left grow |
| Sc16Uart.NonFifoOverrun | module_sc16is7x0/module_sc16is7x0.cpp:1390-1395 | as written, the non-FIFO loop sends one byte past the chunk, for example the NUL after "AB" |
| Sc16Uart.Uart.constructor | module_sc16is7x0/module_sc16is7x0.cpp:85-96 | a new driver has no error, no callbacks, FIFO mode 0 and an empty log |
| Sc16Uart.Uart.SoftReset | module_sc16is7x0/module_sc16is7x0.cpp:234-254 | 1 only after the IOCTRL read-modify-write; -1, with the error flag, only after a failed transaction |
| Sc16Uart.Uart.SetBaudRate | module_sc16is7x0/module_sc16is7x0.cpp:264-315 | a rate outside 300..230400 is refused with no bus traffic; otherwise the divisor sequence, stopping at the first failure |
| Sc16Uart.Uart.SetDataFormat | module_sc16is7x0/module_sc16is7x0.cpp:325-345 | reads LCR and overwrites it with the format code; -1 exactly on a failed transaction |
| Sc16Uart.Uart.EnterEnhanced | module_sc16is7x0/module_sc16is7x0.cpp:363-389 | returns the LCR and EFR it read; on success the log gains the four opening transactions, and otherwise its last transaction failed |
| Sc16Uart.Uart.LeaveEnhanced | module_sc16is7x0/module_sc16is7x0.cpp:402-414 | writes back the saved EFR, then LCR; on failure the last transaction failed |
| Sc16Uart.Uart.SetModemControl | module_sc16is7x0/module_sc16is7x0.cpp:353-417 | 1 only after the whole window sequence with 0x04 at the MCR sub-address; -1 only after a failed transaction |
| Sc16Uart.Uart.SetFlowControl | module_sc16is7x0/module_sc16is7x0.cpp:428-468 | with LCR at 0xBF, writes the flow code to EFR and then restores LCR |
| Sc16Uart.Uart.SetFlowTriggers | module_sc16is7x0/module_sc16is7x0.cpp:479-583 | a level that is not a multiple of 4, or a halt above the resume level, is refused with no bus traffic; otherwise the TCR byte inside the window |
| Sc16Uart.Uart.SetInterrupt | module_sc16is7x0/module_sc16is7x0.cpp:593-664 | the upper nibble inside the window, the restore, then the whole value at IER |
| Sc16Uart.Uart.EnableFifo | module_sc16is7x0/module_sc16is7x0.cpp:674-756 | the FCR shadow becomes 0x01 for 1 and 0x00 otherwise; the FIFO mode changes only when the FCR write is acknowledged |
| Sc16Uart.Uart.ProgramTriggerLevel | module_sc16is7x0/module_sc16is7x0.cpp:767-931 | TLR is read-modify-written with the new nibble inside the window, and the shadow's upper nibble is cleared once that write succeeds |
| Sc16Uart.Uart.RxFifoSetTriggerLevel | module_sc16is7x0/module_sc16is7x0.cpp:767-931 | does nothing in FIFO mode 0; refuses a level that is not a multiple of 4 with no traffic; otherwise programs TLR[7:4] |
| Sc16Uart.Uart.TxFifoSetTriggerLevel | module_sc16is7x0/module_sc16is7x0.cpp:942-1106 | the same as rxFifoSetTriggerLevel, for TLR[3:0] |
| Sc16Uart.Uart.RxAvailableData | module_sc16is7x0/module_sc16is7x0.cpp:1199-1211 | the RXLVL byte read, or -1 with the error flag when the read fails |
| Sc16Uart.Uart.TxAvailableSpace | module_sc16is7x0/module_sc16is7x0.cpp:1220-1232 | the TXLVL byte read, or -1 with the error flag when the read fails |
| Sc16Uart.Uart.ReadLineStatus | module_sc16is7x0/module_sc16is7x0.cpp:1241-1253 | the LSR byte read, or 0xFF when the read fails |
| Sc16Uart.Uart.ResetFifo | module_sc16is7x0/module_sc16is7x0.cpp:1142-1190 | writes the shadow with FCR[1] (receive) or FCR[2] (transmit) set, and leaves the shadow unchanged |
| Sc16Uart.Uart.EnableLoopback | module_sc16is7x0/module_sc16is7x0.cpp:1264-1284 | MCR read-modify-write with bit 4 set |
| Sc16Uart.Uart.AwaitTxSpace | module_sc16is7x0/module_sc16is7x0.cpp:1317-1319 | returns a positive TXLVL from an acknowledged read, after a busy-wait of TXLVL reads only |
| Sc16Uart.Uart.WriteByte | module_sc16is7x0/module_sc16is7x0.cpp:1294-1328 | the byte goes to THR only after a read reported space; 1 exactly when that write is acknowledged |
| Sc16Uart.Uart.FifoChunk | module_sc16is7x0/module_sc16is7x0.cpp:1368-1388 | one burst of at most the bytes left and at most the space read, continuing the buffer where the last chunk ended |
| Sc16Uart.Uart.ByteChunk | module_sc16is7x0/module_sc16is7x0.cpp:1389-1397 | the next chunk of bytes is handed to writeByte one at a time |
| Sc16Uart.Uart.Write | module_sc16is7x0/module_sc16is7x0.cpp:1339-1404 | the bytes handed to THR are exactly the first len bytes of the buffer, in order, and in FIFO mode all of them are acknowledged; returns len, or -1 after a failed burst |
| Sc16Uart.Uart.ReadByte | module_sc16is7x0/module_sc16is7x0.cpp:1414-1436 | with data waiting, exactly one byte is read from RHR; otherwise no byte |
| Sc16Uart.Uart.Read | module_sc16is7x0/module_sc16is7x0.cpp:1447-1467 | asks RHR for the smaller of RXLVL and len, and returns that count or -1 |
| Sc16Uart.Uart.RxEmptyFifo | module_sc16is7x0/module_sc16is7x0.cpp:1115-1132 | reads RXLVL and drains that many bytes; a level of 0 reads nothing, and a failed RXLVL read asks for -1 bytes |
| Sc16Uart.Uart.IsIntPending | module_sc16is7x0/module_sc16is7x0.cpp:1476-1507 | 1 exactly when IIR[0] is clear, 0 when it is set, -1 on a failed read |
| Sc16Uart.Uart.WhichInt | module_sc16is7x0/module_sc16is7x0.cpp:1516-1534 | the identification in IIR[5:1], 0 when nothing is pending, -1 on a failed read |
| Sc16Uart.Uart.DeliverData | module_sc16is7x0/module_sc16is7x0.cpp:1565-1577 | the log gains the RXLVL read and, only when bytes are waiting, read()'s RXLVL read and RHR burst (DataLog); the error flag is that of the last read; the received-data event is raised exactly when bytes are waiting |
| Sc16Uart.Uart.ReportData | module_sc16is7x0/module_sc16is7x0.cpp:1567-1573 | after RXLVL reported waiting bytes: the log gains read()'s two transactions (ReadLog), the error flag is read()'s, and the received-data event for that RXLVL read is raised |
| Sc16Uart.PollCasesOnlyRead | module_sc16is7x0/module_sc16is7x0.cpp:1565-1582 | the received-data and transmit-space cases of pollInt change no stored register and write nothing to THR |
| Sc16Uart.Uart.PollInt | module_sc16is7x0/module_sc16is7x0.cpp:1544-1599 | for each case of the UART switch: the result (1, 0 or -1), the events (only for registered callbacks), the exact log (the IIR read, then DataLog or the TXLVL read when a callback is registered) and the error flag |
| Sc16Uart.Uart.IntIsrDataReceived | module_sc16is7x0/module_sc16is7x0.cpp:1612-1616 | registers or clears the data callback and changes nothing else |
| Sc16Uart.Uart.IntIsrSpaceAvailable | module_sc16is7x0/module_sc16is7x0.cpp:1628-1632 | registers or clears the space callback and changes nothing else |
| Sc16Uart.Uart.InitLine | module_sc16is7x0/module_sc16is7x0.cpp:175-200 | baud rate, format and FIFO resets; 1 exactly when no step failed, leaving FIFO mode 0 and an FCR shadow of 0 |
| Sc16Uart.Uart.InitFlow | module_sc16is7x0/module_sc16is7x0.cpp:200-227 | flow control, flow triggers, modem control and interrupts; 1 exactly when no step failed, and the configuration is kept |
| Sc16Uart.Uart.InitUart | module_sc16is7x0/module_sc16is7x0.cpp:175-227 | 1 exactly when no step failed, leaving FIFO mode 0 and an FCR shadow of 0; otherwise the last transaction failed |
| Sc16Uart.Uart.Init | module_sc16is7x0/module_sc16is7x0.cpp:111-118 | returns 1 whatever its steps return; without an error it leaves FIFO mode 0 and an FCR shadow of 0 |
| Sc16Gpio.LatchShifts | module_sc16is7x0/module_sc16is750.cpp:453-456 | OR-ing in `1 << pin` sets that bit; AND-ing with `~(0 << pin)` changes nothing |
| Sc16Gpio.PinUpdateEffect | module_sc16is7x0/module_sc16is750.cpp:148-196 | a one-pin read-modify-write leaves that pin's bit at the requested value and every other bit and register as read |
| Sc16Gpio.PinEventsFlagged | module_sc16is7x0/module_sc16is750.cpp:621-646 | each pin callback names a flagged pin and its latched level |
| Sc16Gpio.PinEventsComplete | module_sc16is7x0/module_sc16is750.cpp:621-646 | a pin gets a callback exactly when its flag is set |
| Sc16Gpio.PinEventsAscending | module_sc16is7x0/module_sc16is750.cpp:621-646 | the pin callbacks come in strictly ascending pin order |
| Sc16Gpio.ReadFlagsSpec | module_sc16is7x0/module_sc16is750.cpp:538-567 | with three good reads a pin is flagged exactly when it is an enabled input whose level changed; a failed read flags all eight pins |
| Sc16Gpio.LatchLevel | module_sc16is7x0/module_sc16is750.cpp:451-457 | level 1 sets the pin's latch bit; level 0 leaves the latch unchanged |
| Sc16Gpio.ReadFlagsTwice | module_sc16is7x0/module_sc16is750.cpp:538-567 | reading the flags again with the pins unchanged reports no pin |
| Sc16Gpio.Gpio.constructor | module_sc16is7x0/module_sc16is750.cpp:58-63 | a new driver has a zero latch, no pin callback and the UART part's initial state |
| Sc16Gpio.Gpio.InitIO | module_sc16is7x0/module_sc16is750.cpp:114-137 | writes `CONF_IO_DFLT \| value` to IOCTRL |
| Sc16Gpio.Gpio.PinMode | module_sc16is7x0/module_sc16is750.cpp:148-196 | a pin outside 0..7 is refused with no traffic; otherwise IODIR's bit for the pin is set for OUTPUT or cleared for INPUT |
| Sc16Gpio.Gpio.PortMode | module_sc16is7x0/module_sc16is750.cpp:207-236 | IODIR becomes 0xFF for OUTPUT and 0x00 for INPUT; another direction is refused with no traffic |
| Sc16Gpio.Gpio.DigitalWrite | module_sc16is7x0/module_sc16is750.cpp:247-295 | IOSTATE gets the pin at the requested level and the other bits as read |
| Sc16Gpio.Gpio.DigitalRead | module_sc16is7x0/module_sc16is750.cpp:305-341 | the level of the pin in IOSTATE, 0 or 1, or -1 |
| Sc16Gpio.Gpio.ReadState | module_sc16is7x0/module_sc16is750.cpp:351-354 | the same result as digitalRead |
| Sc16Gpio.Gpio.WritePort | module_sc16is7x0/module_sc16is750.cpp:364-382 | writes the value to IOSTATE unchanged |
| Sc16Gpio.Gpio.ReadPort | module_sc16is7x0/module_sc16is750.cpp:391-408 | the IOSTATE byte, or 0xFF when the read fails |
| Sc16Gpio.Gpio.SetPinIntEnable | module_sc16is7x0/module_sc16is750.cpp:431-448 | IOINTEN's bit for the pin is set or cleared and the other bits are kept |
| Sc16Gpio.Gpio.LatchPin | module_sc16is7x0/module_sc16is750.cpp:450-462 | a pin at 1 sets its latch bit, and a pin at 0 leaves the latch unchanged |
| Sc16Gpio.Gpio.PinIntEnable | module_sc16is7x0/module_sc16is750.cpp:419-480 | the range check, the IOINTEN update, then the latch update only when that write is acknowledged |
| Sc16Gpio.Gpio.PortIntEnable | module_sc16is7x0/module_sc16is750.cpp:490-527 | IOINTEN becomes 0x00 or 0xFF, then the latch reloads from readPort, or becomes 0 when that read fails |
| Sc16Gpio.Gpio.ReadIntFlagPort | module_sc16is7x0/module_sc16is750.cpp:538-567 | returns the pins changed since the latch among the enabled inputs, and the latch takes the levels read |
| Sc16Gpio.Gpio.NotifyPins | module_sc16is7x0/module_sc16is750.cpp:621-646 | one callback per flagged pin in ascending order, then returns the number of flagged pins |
| Sc16Gpio.Gpio.RaisePinEvents | module_sc16is7x0/module_sc16is750.cpp:624-643 | the count is the number of flags set, and the events are PinEvents of the flags and the latch |
| Sc16Gpio.Gpio.DeliverData | module_sc16is7x0/module_sc16is750.cpp:600-610 | the log gains the RXLVL read and then read() with that level as an `unsigned int` (GpioDataLog), with no check that a byte is waiting; the error flag is read()'s; the event is always raised |
| Sc16Gpio.GpioDataOnlyReads | module_sc16is7x0/module_sc16is750.cpp:600-610 | the GPIO driver's received-data case changes no stored register and writes nothing to THR |
| Sc16Gpio.Gpio.PollInt | module_sc16is7x0/module_sc16is750.cpp:577-659 | for each case of the GPIO switch: the result, the events, the exact log and the error flag; a pin change returns the number of flagged pins and reloads the latch from IOSTATE (0xFF when that read fails) |
| Sc16Gpio.Gpio.IntIsrIO | module_sc16is7x0/module_sc16is750.cpp:671-675 | registers or clears the pin callback and keeps the latch |
| Sc16Gpio.Gpio.Init | module_sc16is7x0/module_sc16is750.cpp:94-105 | returns 1 whatever its steps return; the FCR shadow ends as 0x01, and FIFO mode is 1 when there was no error |
| Sc16Legacy.InitEffect | module_sc16is750/module_sc16is750.cpp:209-321 | initUART clears MCR and sets LCR to 8N1; the upper nibble lands in DLH, and IER keeps only the lower nibble |
| Sc16Legacy.FormatOr | module_sc16is750/module_sc16is750.cpp:425-453 | OR-ing the code into LCR selects the requested format exactly when LCR[4:0] started clear |
| Sc16Legacy.FormatCannotClear | module_sc16is750/module_sc16is750.cpp:433 | from 8E1 a request for 8N1 leaves the line at 8E1 |
| Sc16Legacy.FifoByteSpec | module_sc16is750/module_sc16is750.cpp:663-704 | enableFifo changes bit 0 of the byte it read to the value and keeps the other bits |
| Sc16Legacy.ResetByteSpec | module_sc16is750/module_sc16is750.cpp:938-1006 | a FIFO reset sets its own bit and keeps the other bits |
| Sc16Legacy.TriggerEffect | module_sc16is750/module_sc16is750.cpp:715-805 | MCR[2] ends set, the TLR byte lands in XOFF2 (LCR is 0xBF), and LCR and EFR end as they were |
| Sc16Legacy.RxTriggerDropsTx | module_sc16is750/module_sc16is750.cpp:782 | the receive setter writes the whole TLR byte, so it zeroes the transmit nibble (0x20 where the split driver writes 0x24) |
| Sc16Legacy.TriggerBytes | module_sc16is750/module_sc16is750.cpp:782-883 | for levels up to 60 each setter writes its own nibble and zeroes the other |
| Sc16Legacy.Legacy.constructor | module_sc16is750/module_sc16is750.cpp:92-102 | the legacy driver's error flag and callbacks live in the UART part and its latch in the GPIO part, all at their initial values |
| Sc16Legacy.Legacy.InitUart | module_sc16is750/module_sc16is750.cpp:209-321 | the initUART sequence, stopping at the first failed transaction |
| Sc16Legacy.Legacy.SetDataFormat | module_sc16is750/module_sc16is750.cpp:425-453 | reads LCR and writes `LCR \| format` back |
| Sc16Legacy.Legacy.AwaitThrEmpty | module_sc16is750/module_sc16is750.cpp:469-479 | ends at a failed LSR read (-1) or at a read with LSR[5] set, after LSR reads only |
| Sc16Legacy.Legacy.WriteByte | module_sc16is750/module_sc16is750.cpp:463-489 | the byte goes out only right after an LSR read that reported THR empty; -1 when that wait fails |
| Sc16Legacy.Legacy.Write | module_sc16is750/module_sc16is750.cpp:500-551 | after the LSR wait, the bytes sent are exactly the first len bytes of the buffer, in TXLVL-sized bursts |
| Sc16Legacy.Legacy.EnableFifo | module_sc16is750/module_sc16is750.cpp:663-704 | a value other than 0 or 1 is refused after the read; otherwise FCR bit 0 is written as requested |
| Sc16Legacy.Legacy.ResetFifo | module_sc16is750/module_sc16is750.cpp:938-1006 | reads the FCR sub-address and writes it back with bit 1 or bit 2 set |
| Sc16Legacy.Legacy.ProgramTrigger | module_sc16is750/module_sc16is750.cpp:750-805 | the shared trigger sequence with the given TLR byte |
| Sc16Legacy.Legacy.RxFifoSetTriggerLevel | module_sc16is750/module_sc16is750.cpp:715-805 | refuses a level that is not a multiple of 4 with no traffic; otherwise writes `(level/4) << 4` as the whole TLR byte |
| Sc16Legacy.Legacy.TxFifoSetTriggerLevel | module_sc16is750/module_sc16is750.cpp:816-906 | refuses a level that is not a multiple of 4 with no traffic; otherwise writes `level/4` as the whole TLR byte |
| Sc16Legacy.Legacy.IsIntPending | module_sc16is750/module_sc16is750.cpp:1477-1508 | as written it never returns 1: a good IIR read gives -1, and a failed one gives 0 or -1 |
| Sc16Legacy.Legacy.RxEmptyFifo | module_sc16is750/module_sc16is750.cpp:915-928 | reads RXLVL, then asks RHR for that many bytes even when the count is 0 or -1 |
| Sc16Legacy.Legacy.Init | module_sc16is750/module_sc16is750.cpp:143-154 | returns 1 whatever its steps return, and keeps the callbacks and configuration |
| Mcp230xx.AddressesDistinct | module_mcp230xx/module_mcp230xx.cpp:59-79 | under the constructor's shift, the registers a device can reach have pairwise distinct addresses, none of them IOCON |
| Mcp230xx.BankLayout | module_mcp230xx/module_mcp230xx.cpp:59-79 | port A of each bank is at twice the bank's index and port B is right after it |
| Mcp230xx.SinglePortMap | module_mcp230xx/module_mcp230xx.cpp:56-79 | with shift 1 the registers are the MCP23009 map 0x00..0x0A, with IOCON at 0x05 |
| Mcp230xx.PinPort | module_mcp230xx/module_mcp230xx.cpp:410-417 | pins 0..7 are on port 0 and pins 8..15 on port 1 |
| Mcp230xx.PinBit | module_mcp230xx/module_mcp230xx.cpp:410-417 | the bit of a pin within its port is below 8 |
| Mcp230xx.PinNumbering | module_mcp230xx/module_mcp230xx.cpp:1217 | `pin + port * 8` and the port/bit split of the pin methods are inverse to each other |
| Mcp230xx.PortBytes | module_mcp230xx/module_mcp230xx.cpp:271-317 | each port-level byte sets every pin the way the pin-level method sets one pin |
| Mcp230xx.IntModeMeaning | module_mcp230xx/module_mcp230xx.cpp:561-664 | change, high, low and none make the chip interrupt on change, on high, on low, or never; no other string is a mode |
| Mcp230xx.UpdateSpec | module_mcp230xx/module_mcp230xx.cpp:328-387 | a read-modify-write succeeds exactly when both transactions are acknowledged and the level is 0 or 1, and then changes only that bit |
| Mcp230xx.ModeWriteOutcome | module_mcp230xx/module_mcp230xx.cpp:620-664 | the write phase succeeds exactly when the mode is known and its three writes are acknowledged, and writes nothing for an unknown mode |
| Mcp230xx.PinIntModeReads | module_mcp230xx/module_mcp230xx.cpp:561-620 | a failed read ends pinIntMode with -1 after reads only; three good reads hand their bytes to the write phase |
| Mcp230xx.PinIntModeResult | module_mcp230xx/module_mcp230xx.cpp:561-664 | returns 1 or -1, sets the error flag exactly on -1, and only reads for an unknown mode |
| Mcp230xx.PinIntModeSucceeds | module_mcp230xx/module_mcp230xx.cpp:561-664 | succeeds exactly when the mode is known and all six transactions are acknowledged |
| Mcp230xx.PinIntModeLog | module_mcp230xx/module_mcp230xx.cpp:561-664 | reads DEFVAL, INTCON and GPINTEN, then writes each back with only the pin's bit changed to the mode's entry |
| Mcp230xx.InitSpec | module_mcp230xx/module_mcp230xx.cpp:122-141 | IOCON is written first with SEQOP forced; on a two-port device with every transaction acknowledged, the interrupt registers of both ports are cleared and init returns 1 |
| Mcp230xx.InitFailsBelowTwoPorts | module_mcp230xx/module_mcp230xx.cpp:131-140 | on a device with fewer than two ports, init as written reports failure even when every transaction is acknowledged |
| Mcp230xx.InitExistingSpec | module_mcp230xx/module_mcp230xx.cpp:122-141 | the corrected init succeeds on any device whose transactions are acknowledged, and equals the driver's init on two ports |
| Mcp230xx.PortNoneOk | module_mcp230xx/module_mcp230xx.cpp:675-756 | portIntMode(port, "none") on an existing port returns 1 when its three writes are acknowledged |
| Mcp230xx.PortNoneLog | module_mcp230xx/module_mcp230xx.cpp:675-756 | portIntMode(port, "none") clears DEFVAL, INTCON and GPINTEN of the port, in that order |
| Mcp230xx.IntReadSpec | module_mcp230xx/module_mcp230xx.cpp:1025-1088 | digitalIntRead returns -1, 0 or 1; with flags pending and INTCAP read, it is the pin's bit in INTCAP |
| Mcp230xx.CallbackOrder | module_mcp230xx/module_mcp230xx.cpp:1217-1230 | for one interrupt the global, port and pin callbacks are called in that order, all with the value read |
| Mcp230xx.CallbackPresence | module_mcp230xx/module_mcp230xx.cpp:1217-1230 | each callback is called exactly when it is registered |
| Mcp230xx.PollCount | module_mcp230xx/module_mcp230xx.cpp:1202-1237 | pollInt returns the number of flags set in the two INTF bytes read, at most 16 |
| Mcp230xx.PollFailedFlagRead | module_mcp230xx/module_mcp230xx.cpp:1207-1215 | a failed INTF read counts as eight interrupts, with the callbacks of all eight pins |
| Mcp230xx.PollGlobalCalls | module_mcp230xx/module_mcp230xx.cpp:1202-1237 | with a global callback registered, it is called once for every interrupt counted |
| Mcp230xx.PortExpander.constructor | module_mcp230xx/module_mcp230xx.cpp:92-113 | the shift is 1 exactly for one port; the log and error flag are those of the corrected init(SEQOP); every callback is cleared |
| Mcp230xx.PortExpander.ClearCallbacks | module_mcp230xx/module_mcp230xx.cpp:106-112 | after it no callback of any kind is registered |
| Mcp230xx.PortExpander.Update | module_mcp230xx/module_mcp230xx.cpp:328-387 | the shared one-bit read-modify-write, with the outcome UpdateSpec describes |
| Mcp230xx.PortExpander.Init | module_mcp230xx/module_mcp230xx.cpp:122-141 | IOCON := value OR SEQOP, then the "none" mode on each port the device has |
| Mcp230xx.PortExpander.PinMode | module_mcp230xx/module_mcp230xx.cpp:200-259 | OUTPUT clears the pin's IODIR bit and INPUT sets it; an out-of-range pin is refused with no traffic |
| Mcp230xx.PortExpander.PortMode | module_mcp230xx/module_mcp230xx.cpp:271-317 | IODIR becomes 0x00 for OUTPUT and 0xFF for INPUT; anything else is refused with no traffic |
| Mcp230xx.PortExpander.DigitalWrite | module_mcp230xx/module_mcp230xx.cpp:328-387 | sets the pin's OLAT bit to the value and keeps the rest |
| Mcp230xx.PortExpander.DigitalRead | module_mcp230xx/module_mcp230xx.cpp:397-447 | the pin's level in its GPIO byte, or -1 |
| Mcp230xx.PortExpander.ReadState | module_mcp230xx/module_mcp230xx.cpp:457-460 | the same result as digitalRead |
| Mcp230xx.PortExpander.WritePort | module_mcp230xx/module_mcp230xx.cpp:471-506 | OLAT of the port becomes the value; an out-of-range port is refused with no traffic |
| Mcp230xx.PortExpander.ReadPort | module_mcp230xx/module_mcp230xx.cpp:516-550 | the port's GPIO byte, or 0xFF on error |
| Mcp230xx.PortExpander.PinIntMode | module_mcp230xx/module_mcp230xx.cpp:561-664 | the result and the log of the pinIntMode specification |
| Mcp230xx.PortExpander.PortIntMode | module_mcp230xx/module_mcp230xx.cpp:675-756 | the mode check first, then DEFVAL, INTCON and GPINTEN as whole bytes per the mode table |
| Mcp230xx.PortExpander.PinPullUpMode | module_mcp230xx/module_mcp230xx.cpp:767-826 | sets the pin's GPPU bit to the value, 0 or 1 |
| Mcp230xx.PortExpander.PortPullUpMode | module_mcp230xx/module_mcp230xx.cpp:838-884 | GPPU becomes 0x00 or 0xFF; another value is refused with no traffic |
| Mcp230xx.PortExpander.PinPolarityMode | module_mcp230xx/module_mcp230xx.cpp:896-955 | sets the pin's IPOL bit to the value, 0 or 1 |
| Mcp230xx.PortExpander.PortPolarityMode | module_mcp230xx/module_mcp230xx.cpp:968-1014 | IPOL becomes 0x00 or 0xFF; another value is refused with no traffic |
| Mcp230xx.PortExpander.DigitalIntRead | module_mcp230xx/module_mcp230xx.cpp:1025-1088 | the pin's level captured in INTCAP when the port has a flag set |
| Mcp230xx.PortExpander.ReadIntPort | module_mcp230xx/module_mcp230xx.cpp:1099-1143 | the port's INTCAP byte, 0 when no flag is set, 0xFF on error |
| Mcp230xx.PortExpander.ReadIntFlagPort | module_mcp230xx/module_mcp230xx.cpp:1154-1188 | the port's INTF byte, 0xFF on error |
| Mcp230xx.PortExpander.Notify | module_mcp230xx/module_mcp230xx.cpp:1217-1230 | appends the callbacks of one interrupt, in pollInt's order |
| Mcp230xx.PortExpander.PollInt | module_mcp230xx/module_mcp230xx.cpp:1202-1237 | returns the count, and makes the calls, of the pollInt specification |
| Mcp230xx.PortExpander.IntIsr | module_mcp230xx/module_mcp230xx.cpp:1249-1253 | registers the global callback and changes nothing else |
| Mcp230xx.PortExpander.PinIntIsr | module_mcp230xx/module_mcp230xx.cpp:1265-1277 | registers a pin callback for a pin the device has, and refuses any other pin |
| Mcp230xx.PortExpander.PortIntIsr | module_mcp230xx/module_mcp230xx.cpp:1289-1301 | registers a port callback for a port the device has, and refuses any other port |
| Mcp23017.Make | module_mcp230xx/module_mcp23017.cpp:58-61 | an expander with two ports, sixteen pins and shift 0 |
| Mcp23017.PinLayout | module_mcp230xx/module_mcp230xx.cpp:59-79 | pins 0-7 are bits of port A and pins 8-15 bits of port B, each at its bank's address in the MCP23017 map |
| Mcp23017.ConstructorInit | module_mcp230xx/module_mcp230xx.cpp:122-141 | with all seven transactions acknowledged, IOCON gets SEQOP and both ports' interrupt registers are cleared |
| Mcp23009.AsWrittenAddresses | module_mcp230xx/module_mcp23009.cpp:61-64 | with 0 ports the shift is 0, so the pin methods reach MCP23017 addresses, five of them past the MCP23009 map |
| Mcp23009.AsWrittenPortCalls | module_mcp230xx/module_mcp23009.cpp:61-64 | with 0 ports every port-level call on port 0 fails with no transaction |
| Mcp23009.AsWrittenInit | module_mcp230xx/module_mcp23009.cpp:61-64 | with 0 ports init writes SEQOP to 0x0A (OLAT) and then fails |
| Mcp23009.AsWrittenPoll | module_mcp230xx/module_mcp23009.cpp:61-64 | with 0 ports pollInt counts sixteen interrupts and never reads an INTF register |
| Mcp23009.CorrectedInit | module_mcp230xx/module_mcp230xx.cpp:122-141 | with one port init writes IOCON at 0x05 and clears DEFVAL, INTCON and GPINTEN at 0x03, 0x04 and 0x02 |
| Mcp23009.CorrectedPortCalls | module_mcp230xx/module_mcp23009.cpp:75-171 | with one port the port-level calls reach the MCP23009 register of each bank, the same register the pin methods use |
| Mcp23009.Device.constructor | module_mcp230xx/module_mcp23009.cpp:61-64 | corrected: an expander with one port (the code passes 0), eight pins and shift 1 |
| Mcp23009.Device.PortMode | module_mcp230xx/module_mcp23009.cpp:75-78 | portMode of port 0 on the corrected one-port device |
| Mcp23009.Device.WritePort | module_mcp230xx/module_mcp23009.cpp:88-91 | writePort of port 0 on the corrected one-port device |
| Mcp23009.Device.ReadPort | module_mcp230xx/module_mcp23009.cpp:100-103 | readPort of port 0 on the corrected one-port device |
| Mcp23009.Device.PortIntMode | module_mcp230xx/module_mcp23009.cpp:113-116 | portIntMode of port 0 on the corrected one-port device |
| Mcp23009.Device.PortPullUpMode | module_mcp230xx/module_mcp23009.cpp:127-130 | portPullUpMode of port 0 on the corrected one-port device |
| Mcp23009.Device.PortPolarityMode | module_mcp230xx/module_mcp23009.cpp:142-145 | portPolarityMode of port 0 on the corrected one-port device |
| Mcp23009.Device.ReadIntPort | module_mcp230xx/module_mcp23009.cpp:155-158 | readIntPort of port 0 on the corrected one-port device |
| Mcp23009.Device.ReadIntFlagPort | module_mcp230xx/module_mcp23009.cpp:168-171 | readIntFlagPort of port 0 on the corrected one-port device |
| Hd44780.ByteLatches | module_hd44780/module_hd44780.cpp:131-188 | writeByte makes the LCD latch the high nibble then the low nibble, both with RS at the mode, and together they rebuild the byte |
| Hd44780.PinDriver.constructor | module_hd44780/module_hd44780.cpp:105-114 | records the wiring and makes RS, EN and D4-D7 outputs |
| Hd44780.PinDriver.PutNibble | module_hd44780/module_hd44780.cpp:140-164 | appends the nibble's pin writes: data lines low, the nibble's 1 bits high, then the EN pulse |
| Hd44780.RunNibble | module_hd44780/module_hd44780.cpp:140-164 | one nibble's pin writes make the LCD latch that nibble with RS as it stands |
| Hd44780.PinDriver.WriteByte | module_hd44780/module_hd44780.cpp:131-188 | the pin writes latch exactly the two nibbles of the byte; returns 1 |
| Hd44780.AttemptCalls | module_hd44780/module_hd44780.cpp:424-450 | the bytes go out in order, each with the driver's answer, and never more calls than bytes |
| Hd44780.AttemptStops | module_hd44780/module_hd44780.cpp:424-450 | the calls stop right after the first refusal |
| Hd44780.AttemptDelivers | module_hd44780/module_hd44780.cpp:424-450 | every byte is delivered exactly when the driver accepts every call |
| Hd44780.RowAddresses | module_hd44780/module_hd44780.cpp:59-62 | each row command is "set DDRAM address" with the row's first address; rows 3 and 4 continue rows 1 and 2 after 20 characters |
| Hd44780.PrintFillsRow | module_hd44780/module_hd44780.cpp:424-450 | moving col spaces and printing leaves the row showing the text from col, cut at the edge, with blanks elsewhere |
| Hd44780.PrintLeavesStaleColumns | module_hd44780/module_hd44780.cpp:440-447 | as written, printing "AB" on a 16-column row sends 14 bytes, and the last columns keep old contents |
| Hd44780.ControlByteBits | module_hd44780/module_hd44780.cpp:617-639 | the byte is 0b00001DCB with D, C and B set exactly for power, cursor and blink |
| Hd44780.InitFirstRefused | module_hd44780/module_hd44780.cpp:457-474 | when the first init byte is refused, init stops after that one call |
| Hd44780.PrintAtShows | module_hd44780/module_hd44780.cpp:568-585 | once every call is accepted, the row shows the text from the column, whatever it showed before |
| Hd44780.Display.Default | module_hd44780/module_hd44780.cpp:333-339 | a display of 2 rows of 16 characters, with no calls yet |
| Hd44780.Display.constructor | module_hd44780/module_hd44780.cpp:350-356 | a display with the given geometry, with no calls yet |
| Hd44780.Display.SetRow | module_hd44780/module_hd44780.cpp:366-383 | a row outside 1..rows gives -1 with no call; otherwise the row's address command |
| Hd44780.Display.SetCol | module_hd44780/module_hd44780.cpp:393-414 | col spaces from the cursor; the column becomes col on success and 0 otherwise |
| Hd44780.Display.Offset | module_hd44780/module_hd44780.cpp:508-511 | the same as _setCol |
| Hd44780.Display.PrintText | module_hd44780/module_hd44780.cpp:424-450 | the calls are the line's bytes up to the first refusal, and 1 exactly when all are accepted |
| Hd44780.Display.PrintRow | module_hd44780/module_hd44780.cpp:544-556 | the row command, then the whole line from column 0 |
| Hd44780.Display.Print | module_hd44780/module_hd44780.cpp:521-533 | print on row 1 |
| Hd44780.Display.PrintAt | module_hd44780/module_hd44780.cpp:568-585 | the row command, col spaces, then the rest of the line |
| Hd44780.Display.PrintColumn | module_hd44780/module_hd44780.cpp:575-584 | after the row command: the spaces, then the line from col |
| Hd44780.Display.InitAsWritten | module_hd44780/module_hd44780.cpp:457-474 | as written, init returns 1 even when the driver refused a command |
| Hd44780.Display.Init | module_hd44780/module_hd44780.cpp:457-474 | the six init commands; -1 exactly when the driver refuses one |
| Hd44780.Display.Clear | module_hd44780/module_hd44780.cpp:594-605 | the clear-display command |
| Hd44780.Display.ControlDisplay | module_hd44780/module_hd44780.cpp:617-639 | the display-control command with the requested D, C and B bits |
| Hd44780.Display.ReturnHome | module_hd44780/module_hd44780.cpp:648-660 | the home command; the column becomes 0 only when it is accepted |
| Sht2x.PromotedShiftIsShiftStep | module_sht2x/module_sht2x.cpp:266-272 | the driver's shift and XOR with 0x131, stored in a byte, is the byte-wide shift with 0x31 |
| Sht2x.CrcResidue | module_sht2x/module_sht2x.cpp:259-283 | a frame followed by its own CRC checks to zero |
| Sht2x.ByteErrorDetected | module_sht2x/module_sht2x.cpp:259-283 | any error confined to one byte changes the CRC |
| Sht2x.CrcSamples | module_sht2x/module_sht2x.cpp:259-283 | the SHT21 datasheet examples: the frames 0x683A and 0x4E85 have the CRCs 0x7C and 0x6B |
| Sht2x.RawValueSpec | module_sht2x/module_sht2x.cpp:169-170 | the raw value keeps the first byte and the top six bits of the second: a multiple of 4 up to 0xFFFC |
| Sht2x.TemperatureOffset | module_sht2x/module_sht2x.cpp:171 | the as-written offset reads 0.2 degrees too warm: -46.65 instead of -46.85 at raw value 0 |
| Sht2x.ConversionRange | module_sht2x/module_sht2x.cpp:169-200 | both conversions increase with the raw value, stay in range, and never equal the error value -99.99 |
| Sht2x.CelsiusToFahrenheitInverse | module_sht2x/module_sht2x.cpp:212-215 | the Fahrenheit-to-Celsius formula undoes the conversion, and -40 is a fixed point |
| Sht2x.MeasureSpec | module_sht2x/module_sht2x.cpp:153-202 | a measurement succeeds exactly when both transactions are acknowledged and the third byte is the CRC of the first two |
| Sht2x.Sensor.constructor | module_sht2x/module_sht2x.cpp:70-76 | a sensor with no error and an empty log |
| Sht2x.Sensor.SoftReset | module_sht2x/module_sht2x.cpp:132-144 | sends the single byte 0xFE; 1 exactly when it is acknowledged |
| Sht2x.Sensor.ReadSensor | module_sht2x/module_sht2x.cpp:226-248 | the command byte, then a three-byte read only when the command was acknowledged |
| Sht2x.Sensor.CheckCrc | module_sht2x/module_sht2x.cpp:259-283 | 0 exactly when the bitwise CRC of the first bytes equals the checksum, -1 otherwise |
| Sht2x.Sensor.Measure | module_sht2x/module_sht2x.cpp:160-170 | the raw value exactly when MeasureSpec says the measurement succeeds |
| Sht2x.Sensor.ReadTemperature | module_sht2x/module_sht2x.cpp:153-173 | the temperature of the raw value with the datasheet offset, or -99.99 |
| Sht2x.Sensor.ReadHumidity | module_sht2x/module_sht2x.cpp:182-202 | the relative humidity of the raw value, or -99.99 |

## Left out

- I/O: usleep delays, error-message strings, `setAddress`, `setDevicefile`,
  `getErrorMessage` and `fail`. The I2C device file and address are not
  modelled; the bus is the transaction log and the oracle.
- Hardware behaviour is a parameter (the oracle). The busy-waits of
  writeByte end only because the oracle is assumed to report space or an
  empty THR eventually (a precondition on the callers).
- The SC16IS740 variant and the test programs.
- The 74HC595 and SC16IS750 LCD drivers of the HD44780 module. The MCP23017
  LCD driver is abstracted to the same pin writes as the GPIO driver.
- The `!USE_ENHANCED_FIFO` branches of the SC16IS7x0 driver: the constant is
  1.
- `INT_RLSE` in the SC16IS7x0 pollInt is taken to be `INT_RLS` (0x06); the
  name is not defined in the header.
- The `CONF_*` constants that the header does not define become parameters.
- The register-bank rules follow the header comments literally. Chip behaviour
  beyond those comments is not modelled.
- Under those rules, several writes made while LCR is 0xBF reach a different
  register from the one the source's comments name
  (module_sc16is7x0.cpp:392 says "Set MCR[2] to enable TCR and TLR"):
  - setModemControl's MCR byte reaches XON1;
  - setFlowTriggers' TCR byte reaches XOFF1;
  - the trigger setters' TLR byte reaches XOFF2, and their FCR byte reaches EFR;
  - setInterrupt's upper IER nibble reaches DLH.

  The effect lemmas (Sc16Scripts.ModemEffect, TriggersEffect, InterruptEffect,
  TriggerLevelEffect, and Sc16Legacy.TriggerEffect) state these landings. No
  corrected script that leaves the window before writing MCR, TCR, TLR and FCR
  is modelled. These are not listed as findings, because the header comments
  are the only description of the chip's banks here.
- Sc16Uart.Uart.IsIntPending: its third "unknown error" branch is dead (bit 0
  is 0 or 1), and it is merged into the last branch.
- The SC16IS7x0 softReset tests `> 0` where the other methods test `< 0`.
  With the library's -1/positive results the two agree, so this is not
  modelled separately.
- Mcp230xx.PortExpander.DigitalIntRead: the `intFlags < 0` test on an
  `unsigned char` is dead. A failed INTF read therefore reads as 0xFF (see
  PollFailedFlagRead), and a level can be returned while the error flag is
  set.
- The MCP23009 header declares a constructor without arguments, while the
  `.cpp` defines one that takes an address and a file. The model follows the
  `.cpp`.
- Hd44780.Display: `crtCol` is never initialised by the source. The model
  starts it at 0, and the constructor requires at most 4 rows (the row
  addresses the driver knows).
- Floating point: the SHT2x conversions use real numbers, so rounding is not
  modelled.
- The SHT2x HOLD and user-register commands are defined but never used.
- Sht2x: linearity of the CRC is not stated. Single-byte error detection, the
  residue and injectivity of the shift stand for it.
- Sc16Uart.Uart.InitLine: states the result and the configuration, not the log of its configuration calls (each call's own contract states its log).
- Sc16Uart.Uart.InitFlow: states the result, not the log of its configuration calls.
- Sc16Uart.Uart.InitUart: states the result and the configuration, not the log.
- Sc16Uart.Uart.Init: states the result and the configuration, not the log.
- Sc16Gpio.Gpio.Init: states the result and the FIFO configuration, not the log.
- Sc16Legacy.Legacy.Init: states only the result and the kept state, not the log.
- Sc16Uart.ReceivedEventFrom: the bytes of the receive buffer that read() does
  not fill are not modelled.

## Findings

| source | as written | input that shows it | evidently intended | confidence | as-written member | corrected member |
|---|---|---|---|---|---|---|
| module_sc16is7x0/module_sc16is7x0.cpp:1370-1380 | the wait for transmit space loops while TXLVL `== 0`, so a failed read (-1) ends it and the chunk length becomes -1 | a TXLVL read that fails with 5 bytes left: 6 bytes are then left | wait while `<= 0`, as writeByte does | not executed | Sc16Uart.FailedLevelAsWritten | Sc16Uart.ChunkProgress, Sc16Uart.Uart.Write |
| module_sc16is7x0/module_sc16is7x0.cpp:1390-1395 | the non-FIFO loop runs `while (writeCount <= writeLen)`, one byte past the chunk | writing "AB" from the buffer "AB\0" sends 'A', 'B' and the NUL | `writeCount < writeLen` | not executed | Sc16Uart.NonFifoChunkAsWritten, Sc16Uart.NonFifoOverrun | Sc16Uart.Uart.ByteChunk, Sc16Uart.Uart.Write |
| module_sc16is750/module_sc16is750.cpp:527 | the single-class write waits while TXLVL `== 0`, with the same effect as in the split driver | a TXLVL read that fails with 5 bytes left | wait while `<= 0` | not executed | Sc16Uart.FailedLevelAsWritten | Sc16Legacy.Legacy.Write |
| module_sc16is750/module_sc16is750.cpp:433 | setDataFormat ORs the code into LCR, so bits already set stay set | from 8E1 (0x1B), asking for 8N1 (0x03) leaves 0x1B | overwrite the format bits, as the split driver does | not executed | Sc16Legacy.FormatCannotClear | Sc16Uart.Uart.SetDataFormat, Sc16Scripts.FormatEffect |
| module_sc16is750/module_sc16is750.cpp:1482-1497 | isIntPending tests `receive(...) < 0` for success and `rxBuf[0] & 0x00` for pending | any acknowledged IIR read returns -1 with the error flag set | test `> 0` and `(IIR & 0x01) == 0`, as the split driver does | not executed | Sc16Legacy.Legacy.IsIntPending | Sc16Uart.Uart.IsIntPending |
| module_sc16is750/module_sc16is750.cpp:782 | rxFifoSetTriggerLevel writes `(level/4) << 4` as the whole TLR byte, zeroing the transmit trigger | txFifoSetTriggerLevel(16), then rxFifoSetTriggerLevel(8), writes 0x20 | read-modify-write TLR, giving 0x24 | not executed | Sc16Legacy.RxTriggerDropsTx | Sc16Encodings.RxTlrFields, Sc16Uart.Uart.RxFifoSetTriggerLevel |
| module_mcp230xx/module_mcp230xx.cpp:131-140 | init calls portIntMode for ports 0 and 1 whatever the device has | an MCP23009 (one port) with every transaction acknowledged: init returns -1 | only the ports the device has | not executed | Mcp230xx.InitFailsBelowTwoPorts | Mcp230xx.InitExistingSpec, Mcp230xx.PortExpander.Init |
| module_mcp230xx/module_mcp23009.cpp:61-64 | the MCP23009 passes 0 ports to the base class, so the register shift stays 0 | any port call on port 0 fails; pollInt reports 16 interrupts | 1 port, giving shift 1 and the MCP23009 register map | not executed | Mcp23009.AsWrittenAddresses, Mcp23009.AsWrittenPoll | Mcp23009.CorrectedInit, Mcp23009.CorrectedPortCalls, Mcp23009.Device.constructor |
| module_hd44780/module_hd44780.cpp:440-447 | the padding loop stops short of the end of the line | printing "AB" on an empty 16-column row sends 14 bytes | pad every column after the text | not executed | Hd44780.LineBytesAsWritten, Hd44780.PrintLeavesStaleColumns | Hd44780.PrintFillsRow, Hd44780.Display.PrintText |
| module_hd44780/module_hd44780.cpp:465-469 | init returns 1 after a refused command | a driver that refuses the first command | return -1 | not executed | Hd44780.Display.InitAsWritten, Hd44780.InitFirstRefused | Hd44780.Display.Init |
| module_sht2x/module_sht2x.cpp:171 | the temperature offset is -46.65 | raw value 0 gives -46.65 | the SHT21 datasheet offset -46.85 | not executed | Sht2x.TemperatureAsWritten, Sht2x.TemperatureOffset | Sht2x.Sensor.ReadTemperature |

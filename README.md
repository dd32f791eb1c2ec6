# UART_Tx_Rx framing and watchdog — a Dafny model

This project models the core of a Qt serial-link client used to exercise a
hardware unit over a UART: the receive-side frame accumulator of
`serialPortHandler` and the pieces of `MainWindow` that feed it and watch it.

- **Frame accumulator** (`SerialPort.SerialPortHandler`). Every `readData`
  that finds bytes available appends what `readAll()` returned to `buffer`
  and signals `dataReceived`; with no bytes available it returns at once.
  It then applies the rule for the active message id. Id `0x01` takes a
  17-byte buffer starting `54 01` whose byte 16 is the XOR of bytes 0..15.
  Id `0x02` takes a 6-byte buffer starting `54 02 31` whose byte 5 is the XOR
  of bytes 0..4. Any other id takes nothing. A taken buffer becomes
  `ResponseData` and the buffer is cleared; otherwise the buffer keeps
  accumulating. `recvMsgId` sets the id and clears the buffer, `setPORTNAME`
  clears it and reopens the port, and `writeData` writes only on an open port.
- **Checksums** (`SerialPort.ChkSum`, `Window.CalculateChecksum`). Both are
  XOR folds (`Bytes.XorFold`). `chkSum` skips the trailing checksum slot and
  fails on fewer than two bytes; `calculateChecksum` folds every byte.
- **Hex rendering** (`SerialPort.HexBytesSerial`, `Window.HexBytes`):
  `toHex().toUpper()` split into pairs joined by single spaces (`Hex.Spaced`),
  with a parser (`Hex.ParseSpaced`) that reads the text back.
- **Watchdog** (`Window.MainWindow`): the single-shot response timer as the
  flag `armed`. It is armed by the command pattern, stopped by `dataReceived`,
  and an expiry warns once and disarms it.

The transport is abstract. The bytes `readAll()` returns are the `incoming`
parameter of `ReadData`. Whether opening the device succeeds is the
`openSucceeds` parameter of `SetPortName`. Writes are recorded in the ghost
log `writes`. Signals are returned as event records: `ReadEvents` holds
`dataReceived`, the raw buffer shown, the log note, the extracted response
and ACK_01/NACK_01; `WriteEvents` holds `dataReceived` and the status line.
The mutex around the buffer is dropped: `ReadData` is one atomic step.

Behaviour worth knowing, all proved:

- ACK_01 is never reported. The power-card response is 17 bytes, so its
  `toHex()` is 34 characters and cannot equal `ff0aff`; every power-card
  response reports NACK_01 (`PowerCardResponseNeverAcks`, `ReadData`).
- Only an exact-length buffer is taken. A buffer that has grown past the
  expected length (two responses merged, or stray bytes) is never extracted
  until `recvMsgId`, `writeData` or `setPORTNAME` clears it
  (`OvergrownBufferNeverExtracts`).
- `chkSum` is reached only after the length test, so its error path is never
  taken from `readData` (the assertion in `ReadData`).
- A command built from a non-empty `body` as `body + [calculateChecksum(body)]`
  passes the receive checksum rule (`ChecksumRoundTrip`, `CalculateChecksum`,
  `BuiltFrameExtracted`). An empty body gives the one-byte command `[0x00]`,
  on which `chkSum` fails for having fewer than two bytes (`ChecksumRoundTrip`).

Notes on the code as written:

- `writeData` on a closed port keeps the buffer as it is; only the open-port
  path clears it (serialporthandler.h:22-36).
- Only ids `0x01` and `0x02` have an extraction rule. Any other id logs
  "Fatal Error 404", modelled as the note `UnknownMsgId`, and the buffer
  keeps accumulating.
- The handler's `id` field is never initialised by its constructor. The
  model's constructor takes the initial id as a parameter instead of
  assuming a reset value.

The command pattern modelled by `Window.MainWindow.SendCommand` is the one
the source documents as a commented example inside `readData`
(serialporthandler.cpp:199-224). That example arms the timer, appends
`calculateChecksum`, emits `sendMsgId` and calls `writeData`.

## Model

| member | source | states |
|---|---|---|
| `SerialPort.ChkSum` | serialporthandler.cpp:70-87 | fails with the short-data error exactly when fewer than 2 bytes are given; otherwise returns the XOR of every byte but the last, and that value equals the last byte iff the XOR of all bytes is 0 |
| `Window.CalculateChecksum` | mainwindow.cpp:108-117 | returns the XOR of every byte (0 for no bytes); appending it makes the whole command XOR to 0, and for a non-empty command the result passes the receive-side trailer rule |
| `Window.ChecksumRoundTrip` | serialporthandler.cpp:206-215 | calculateChecksum gives the command's XOR; for a non-empty command chkSum of the command with that checksum appended succeeds with that same checksum, and for the empty command it fails with the short-data error on the one-byte `[0x00]` |
| `SerialPort.HexBytesSerial` | serialporthandler.cpp:89-103 | returns the spaced upper-case rendering `Hex.Spaced` of the bytes |
| `Window.HexBytes` | mainwindow.cpp:152-166 | its own copy of the pair-and-space loop returns `Hex.Spaced`, the same text as hexBytesSerial for every input, of length 3n-1 for n > 0 bytes and 0 for none |
| `Hex.SpacedLength` | serialporthandler.cpp:95-100 | the rendering of n bytes has 3n-1 characters for n > 0 and none for n = 0 |
| `Hex.SpacedShape` | serialporthandler.cpp:92-100 | byte k is rendered as its two upper-case hex digits at positions 3k and 3k+1, and position 3k+2 is a single space exactly when another byte follows |
| `Hex.SpacedHasNoOuterSpaces` | serialporthandler.cpp:96-98 | the rendering of a non-empty sequence neither starts nor ends with a space |
| `Hex.SpacedRoundTrip` | serialporthandler.cpp:89-103 | parsing the rendering back yields the original bytes, so the rendering loses nothing |
| `Hex.UpperPair` | serialporthandler.cpp:92 | a byte's upper-case digit pair is 2 characters that read back (high nibble times 16 plus low nibble) as the byte |
| `Hex.ToHexLength` | serialporthandler.cpp:92 | `toHex` writes exactly two characters per byte |
| `Hex.ToHexAt` | serialporthandler.cpp:92 | the `toHex` digits of byte k are its lower-case pair, at positions 2k and 2k+1 |
| `Hex.UpperOfLowerPair` | serialporthandler.cpp:92 | upper-casing the lower-case pair of a byte gives its upper-case pair |
| `Hex.UpperHexAt` | serialporthandler.cpp:92 | in `toHex().toUpper()` the digits of byte k are its upper-case pair at positions 2k and 2k+1 |
| `SerialPort.ExtractsIff` | serialporthandler.cpp:141-190 | a buffer is taken iff the id is 0x01 or 0x02, its length is that id's exact frame size, it starts with that id's header and all its bytes XOR to 0 |
| `SerialPort.BuiltFrameExtracted` | serialporthandler.cpp:145-148 | a header plus payload of the right length followed by the XOR of everything before it is extracted under id 0x01 or 0x02 |
| `SerialPort.OvergrownBufferNeverExtracts` | serialporthandler.cpp:145 | once the buffer is longer than the id's frame size, no further appended bytes make it extractable |
| `SerialPort.PowerCardResponseNeverAcks` | serialporthandler.cpp:230-243 | the hex of any power-card response differs from `ff0aff`, so ACK_01 cannot be reported |
| `SerialPort.SerialPortHandler.constructor` | serialporthandler.cpp:3-8 | a new handler has an empty buffer, a closed port and no writes; its id is the indeterminate initial value |
| `SerialPort.SerialPortHandler.SetPortName` | serialporthandler.cpp:25-52 | the buffer is cleared, the port is open iff opening succeeded, and the status names the port with success or failure |
| `SerialPort.SerialPortHandler.RecvMsgId` | serialporthandler.cpp:254-259 | the id becomes the given id and the buffer is empty, even if it held a complete frame |
| `SerialPort.SerialPortHandler.WriteData` | serialporthandler.h:20-39 | closed port: dataReceived is signalled, the not-initialised status is reported, nothing is written and the buffer is unchanged; open port: the buffer is emptied and exactly one write of the unmodified bytes is logged |
| `SerialPort.SerialPortHandler.ReadData` | serialporthandler.cpp:105-252 | no bytes: nothing changes and nothing is emitted; otherwise dataReceived fires, the raw buffer is old buffer plus incoming, and that buffer is taken (buffer cleared) exactly when the id's rule accepts it, else kept whole; the note logged matches; ACK_01 is never reported and NACK_01 is reported exactly for a power-card extraction |
| `SerialPort.ReassembleFragments` | serialporthandler.cpp:121-161 | a power-card response split over two reads is kept after the first and extracted whole after the second, reporting NACK_01 and leaving the buffer empty |
| `Window.MainWindow.constructor` | mainwindow.cpp:7-51 | the window owns a fresh serial handler with an empty buffer and closed port, and the response timer starts inactive |
| `Window.MainWindow.StartResponseTimer` | serialporthandler.cpp:204 | starting the timer makes it active |
| `Window.MainWindow.OnDataReceived` | mainwindow.cpp:141-148 | afterwards the timer is inactive, and an inactive timer stays as it was |
| `Window.MainWindow.Timeout` | mainwindow.cpp:42-46 | the single-shot timer whose timeout is wired to handleTimeout (mainwindow.cpp:136-139): an expiry warns "Hardware Not Responding!" iff the timer was active, leaves it inactive (single shot), and leaves the serial buffer and message id untouched |
| `Window.MainWindow.OnPortSelected` | mainwindow.cpp:131-134 | returns setPORTNAME's status (opened or failed, naming the port); the handler's buffer is cleared and the port is open iff opening succeeded; id and writes are unchanged |
| `Window.MainWindow.OnReadyRead` | mainwindow.cpp:48 | the port's readyRead runs readData (serialporthandler.cpp:6) and its dataReceived runs onDataReceived: dataReceived fires iff bytes came in, and then the timer is inactive whether or not a frame is valid; no bytes change neither the timer nor the buffer; with bytes, old buffer plus incoming is extracted (buffer cleared) iff the active id's rule accepts it, else kept whole; ACK_01 is never reported |
| `Window.MainWindow.SendCommand` | serialporthandler.cpp:199-224 | the id becomes the command's id and the buffer is empty; open port: the timer is armed and the command with its XOR checksum appended is the one new write; closed port: nothing is written, the not-initialised status is reported and the timer is left inactive |
| `Window.AnyByteCancelsWatchdog` | mainwindow.cpp:141-148 | after a command, whether the port is open or not, a single received byte cancels the timeout: the next expiry warns nothing |
| `Window.SilenceWarnsOnce` | mainwindow.cpp:42-46 | with no reply the expiry warns exactly once, a second expiry warns nothing, and the next command re-arms the warning |

## Left out

- `convertBytesToFloat` (serialporthandler.cpp:54-68): IEEE-754 reinterpretation of raw memory, not modelled.
- Port enumeration (`availablePorts`, `refreshPorts`) and the device settings in `setPORTNAME` (baud 921600, 8N1, no flow control): transport configuration outside the model.
- The mutex in `readData`: concurrency; `ReadData` is one atomic step.
- The `bytesAvailable() < INT_MAX` branch of `readData`: a platform size limit.
- The log file (`initializeLogFile`, `resetLogFile`, `writeToNotes`, `closeLogFile`): file I/O with timestamps. What `readData` logs is returned as a `Note` value instead of text.
- Message boxes (`portStatus`, the dialog of `handleTimeout`), `showGuiData` and widget wiring: UI only.
- `printMemoryUsage`, `elapseStart` and `elapseEnd`: process diagnostics and wall-clock timing.
- main.cpp: display settings only. mainwindow.h: declarations only.
- The timer's 2000 ms duration: time is not modelled, only whether the timer is active.
- `qDebug` and `qWarning` output: console diagnostics.
- SerialPort.SerialPortHandler.ReadData: does not report the dashed separator line `readData` emits through `portOpening` at its start, even when no bytes are available. It is a display-only line.
- Hex.ToUpper: models `QByteArray::toUpper` on ASCII letters only (Qt 5 also upper-cases Latin-1 letters); on hex text this only turns `a`-`f` into `A`-`F`.

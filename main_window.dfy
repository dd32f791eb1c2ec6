/**
 * The parts of the main window that feed the serial handler and watch it:
 * the outbound checksum, the display rendering, the single-shot response
 * timer (the watchdog) and the command-sending pattern that arms it.
 *
 * The timer is reduced to whether it is active; its 2000 ms duration and the
 * passing of time are not modelled: `Timeout` is the moment the event loop
 * delivers an expiry.
 */
module Window {
  import opened Bytes
  import Hex
  import SerialPort

  /** The warning handleTimeout shows. */
  const NOT_RESPONDING: string := "Hardware Not Responding!"

  /**
   * calculateChecksum: XOR of every byte (0 for no bytes). Appending it makes
   * the whole command XOR to zero, and a non-empty command with it appended
   * passes the receive-side checksum rule.
   */
  method CalculateChecksum(data: seq<byte>) returns (checkSum: byte)
    ensures checkSum == XorFold(data)
    ensures XorFold(data + [checkSum]) == 0
    ensures |data| > 0 ==> SerialPort.TrailerValid(data + [checkSum])
  {
    checkSum := 0;
    for i := 0 to |data|
      invariant checkSum == XorFold(data[..i])
    {
      XorFoldPrefixStep(data, i);
      checkSum := checkSum ^ data[i];
    }
    assert data[..|data|] == data;
    assert (data + [checkSum])[..|data|] == data;
  }

  /**
   * hexBytes: the window's own copy of the hexBytesSerial loop, proved
   * against the same rendering, so the two return the same text for every
   * input.
   */
  method HexBytes(cmd: seq<byte>) returns (formatted: string)
    ensures formatted == Hex.Spaced(cmd)
    ensures |formatted| == if |cmd| == 0 then 0 else 3 * |cmd| - 1
  {
    var hexOutput := Hex.ToUpper(Hex.ToHex(cmd));
    Hex.ToHexLength(cmd);
    formatted := "";
    var i := 0;
    while i < |hexOutput|
      invariant |hexOutput| == 2 * |cmd|
      invariant 0 <= i <= |hexOutput| && i % 2 == 0
      invariant formatted == Hex.Spaced(cmd[..i / 2])
    {
      if i > 0 {
        formatted := formatted + " ";
      }
      var end := if i + 2 <= |hexOutput| then i + 2 else |hexOutput|;
      Hex.UpperHexAt(cmd, i / 2);
      assert cmd[..i / 2 + 1][..i / 2] == cmd[..i / 2];
      formatted := formatted + hexOutput[i..end];
      i := i + 2;
    }
    assert cmd[..i / 2] == cmd;
    Hex.SpacedLength(cmd);
  }

  /**
   * The outbound and inbound checksums agree: for a non-empty command, chkSum
   * of the command followed by its calculateChecksum succeeds and yields that
   * same checksum, so the trailer matches. An empty command becomes the
   * single byte 0, too short for chkSum.
   */
  method ChecksumRoundTrip(cmd: seq<byte>) returns (c: byte, r: Result<byte, SerialPort.ChecksumError>)
    ensures c == XorFold(cmd)
    ensures |cmd| > 0 ==> r == Ok(c)
    ensures |cmd| == 0 ==> c == 0 && r == Err(SerialPort.DataTooShort(1))
  {
    c := CalculateChecksum(cmd);
    r := SerialPort.ChkSum(cmd + [c]);
    assert (cmd + [c])[..|cmd|] == cmd;
  }

  class MainWindow {
    /** The serial handler the window owns (`serialObj`). */
    const serial: SerialPort.SerialPortHandler
    /** Whether the single-shot response timer is active. */
    var armed: bool

    constructor (initialId: byte)
      ensures fresh(serial) && !armed
      ensures serial.buffer == [] && serial.id == initialId && !serial.isOpen
      ensures serial.writes == []
    {
      serial := new SerialPort.SerialPortHandler(initialId);
      armed := false;
    }

    /** `responseTimer->start(2000)`: (re)arms the watchdog. */
    method StartResponseTimer()
      modifies this
      ensures armed
    {
      armed := true;
    }

    /** onDataReceived: stops the timer if it is active; otherwise nothing happens. */
    method OnDataReceived()
      modifies this
      ensures !armed
    {
      if armed {
        armed := false;
      }
    }

    /**
     * The timer's expiry delivered by the event loop. Only an active timer
     * expires; being single-shot it is then inactive, so it warns at most
     * once per arming. handleTimeout only shows the warning: the serial
     * buffer and the message id are untouched.
     */
    method Timeout() returns (warning: Option<string>)
      modifies this
      ensures warning == if old(armed) then Some(NOT_RESPONDING) else None
      ensures !armed
      ensures serial.buffer == old(serial.buffer) && serial.id == old(serial.id)
    {
      if armed {
        armed := false;
        warning := Some(NOT_RESPONDING);
      } else {
        warning := None;
      }
    }

    /** onPortSelected: hands the chosen port to the serial handler. */
    method OnPortSelected(portName: string, openSucceeds: bool)
      returns (status: SerialPort.PortStatus)
      modifies serial
      ensures status == if openSucceeds then SerialPort.Opened(portName)
                        else SerialPort.OpenFailed(portName)
      ensures serial.buffer == [] && serial.isOpen == openSucceeds
      ensures serial.id == old(serial.id) && serial.writes == old(serial.writes)
    {
      status := serial.SetPortName(portName, openSucceeds);
    }

    /**
     * The serial port's readyRead, wired to readData, whose `dataReceived`
     * is wired to onDataReceived: any bytes at all stop the watchdog, valid
     * response or not; no bytes leave it as it was.
     */
    method OnReadyRead(incoming: seq<byte>) returns (e: SerialPort.ReadEvents)
      modifies this, serial
      ensures incoming == [] ==> armed == old(armed) && serial.buffer == old(serial.buffer)
      ensures incoming != [] ==> !armed
      ensures serial.id == old(serial.id) && serial.isOpen == old(serial.isOpen)
      ensures serial.writes == old(serial.writes)
      ensures e.dataReceived == (incoming != [])
      ensures incoming != [] ==>
        var b := old(serial.buffer) + incoming;
        && (SerialPort.Extracts(serial.id, b) ==> serial.buffer == [] && e.frame == Some(b))
        && (!SerialPort.Extracts(serial.id, b) ==> serial.buffer == b && e.frame == None)
      ensures e.ack != SerialPort.Ack01
    {
      e := serial.ReadData(incoming);
      if e.dataReceived {
        OnDataReceived();
      }
    }

    /**
     * The command pattern each button follows: arm the timer, append the
     * checksum to the command bytes, announce the expected message id (which
     * clears the buffer), then write. On an open port the command goes out
     * with its checksum and the watchdog stays armed; on a closed port
     * nothing is written and writeData's `dataReceived` disarms the watchdog
     * again, so no timeout is left pending.
     */
    method SendCommand(body: seq<byte>, msgId: byte) returns (w: SerialPort.WriteEvents)
      modifies this, serial
      ensures serial.id == msgId && serial.buffer == [] && serial.isOpen == old(serial.isOpen)
      ensures old(serial.isOpen) ==>
        armed && serial.writes == old(serial.writes) + [body + [XorFold(body)]]
      ensures !old(serial.isOpen) ==>
        !armed && serial.writes == old(serial.writes)
        && w.status == Some(SerialPort.NOT_INITIALIZED)
    {
      StartResponseTimer();
      var checkSum := CalculateChecksum(body);
      var command := body + [checkSum];
      serial.RecvMsgId(msgId);
      w := serial.WriteData(command);
      if w.dataReceived {
        OnDataReceived();
      }
    }
  }

  /**
   * Watchdog, response case: after a command, any single byte arriving
   * before the deadline cancels the timeout entirely. (On a closed port the
   * command has already left the timer inactive.)
   */
  method AnyByteCancelsWatchdog(win: MainWindow, body: seq<byte>, msgId: byte, b: byte)
    returns (warning: Option<string>)
    modifies win, win.serial
    ensures warning == None
  {
    var _ := win.SendCommand(body, msgId);
    var _ := win.OnReadyRead([b]);
    warning := win.Timeout();
  }

  /**
   * Watchdog, silent case: after a command on an open port with no reply,
   * the timeout warns exactly once, and a second command re-arms it cleanly.
   */
  method SilenceWarnsOnce(win: MainWindow, body: seq<byte>, msgId: byte)
    returns (first: Option<string>, second: Option<string>, third: Option<string>)
    requires win.serial.isOpen
    modifies win, win.serial
    ensures first == Some(NOT_RESPONDING) && second == None && third == Some(NOT_RESPONDING)
  {
    var _ := win.SendCommand(body, msgId);
    first := win.Timeout();
    second := win.Timeout();
    var _ := win.SendCommand(body, msgId);
    third := win.Timeout();
  }
}

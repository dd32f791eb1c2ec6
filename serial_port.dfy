/**
 * The receive-side framing of the serial link (class `serialPortHandler`):
 * the byte buffer that accumulates everything read since it was last
 * cleared, the message id that decides which response shape is expected,
 * the per-id extraction rule with its XOR checksum, and the write guard.
 *
 * The transport is abstract: `readAll()` becomes the `incoming` parameter of
 * `ReadData`, opening the device becomes the `openSucceeds` parameter of
 * `SetPortName`, and every successful write is recorded in the ghost log
 * `writes`. Signals the handler emits are returned as event records.
 */
module SerialPort {
  import opened Bytes
  import Hex

  /** First byte of every response frame. */
  const SYNC: byte := 0x54
  /** Message id of the power-card request; its response is 17 bytes. */
  const POWER_CARD_ID: byte := 0x01
  const POWER_CARD_FRAME_SIZE: nat := 17
  /** Message id of the DAC request; its response is 6 bytes. */
  const DAC_ID: byte := 0x02
  const DAC_FRAME_SIZE: nat := 6
  /** Third header byte of the DAC response. */
  const DAC_SUBCODE: byte := 0x31
  /** The hex text a power-card response is compared with to signal ACK_01. */
  const ACK_01_HEX: string := "ff0aff"
  const NOT_INITIALIZED: string := "Serial object is not initialized/port not selected"

  // ---------------------------------------------------------------- chkSum

  /** The `std::invalid_argument` chkSum throws for fewer than two bytes. */
  datatype ChecksumError = DataTooShort(size: nat)

  /**
   * chkSum: XOR of every byte except the last (the last is the checksum
   * slot). Fails for fewer than two bytes. On success the trailer matches
   * exactly when the whole sequence XORs to zero.
   */
  method ChkSum(data: seq<byte>) returns (r: Result<byte, ChecksumError>)
    ensures |data| < 2 ==> r == Err(DataTooShort(|data|))
    ensures |data| >= 2 ==> r == Ok(XorFold(data[..|data| - 1]))
    ensures r.Ok? ==> (r.value == data[|data| - 1] <==> XorFold(data) == 0)
  {
    if |data| < 2 {
      return Err(DataTooShort(|data|));
    }
    var checksum: byte := 0;
    for i := 0 to |data| - 1
      invariant checksum == XorFold(data[..i])
    {
      XorFoldPrefixStep(data, i);
      checksum := checksum ^ data[i];
    }
    r := Ok(checksum);
  }

  // -------------------------------------------------------- hexBytesSerial

  /**
   * hexBytesSerial: renders `toHex().toUpper()` of the bytes, copying two
   * characters at a time (`QString::mid(i, 2)`) and putting one space before
   * every pair but the first.
   */
  method HexBytesSerial(cmd: seq<byte>) returns (formatted: string)
    ensures formatted == Hex.Spaced(cmd)
  {
    var hexOutput := Hex.ToUpper(Hex.ToHex(cmd));
    Hex.ToHexLength(cmd);
    formatted := "";
    var i := 0;
    while i < |hexOutput|
      invariant |hexOutput| == 2 * |cmd|
      invariant 0 <= i <= |hexOutput| && i % 2 == 0
      invariant formatted == Hex.Spaced(cmd[..i / 2])
    {
      if i > 0 {
        formatted := formatted + " ";
      }
      var end := if i + 2 <= |hexOutput| then i + 2 else |hexOutput|;
      Hex.UpperHexAt(cmd, i / 2);
      assert cmd[..i / 2 + 1][..i / 2] == cmd[..i / 2];
      formatted := formatted + hexOutput[i..end];
      i := i + 2;
    }
    assert cmd[..i / 2] == cmd;
  }

  // ------------------------------------------------------ extraction rules

  /** The checksum rule: the last byte is the XOR of all the bytes before it. */
  predicate TrailerValid(b: seq<byte>)
  {
    |b| >= 2 && b[|b| - 1] == XorFold(b[..|b| - 1])
  }

  /** The response to the power-card request: 17 bytes, `54 01`, checksum at 16. */
  predicate PowerCardFrame(b: seq<byte>)
  {
    |b| == POWER_CARD_FRAME_SIZE && b[0] == SYNC && b[1] == POWER_CARD_ID && TrailerValid(b)
  }

  /** The response to the DAC request: 6 bytes, `54 02 31`, checksum at 5. */
  predicate DacFrame(b: seq<byte>)
  {
    |b| == DAC_FRAME_SIZE && b[0] == SYNC && b[1] == DAC_ID && b[2] == DAC_SUBCODE
    && TrailerValid(b)
  }

  /** Whether readData, with message id `id` active, takes buffer `b` as a response. */
  predicate Extracts(id: byte, b: seq<byte>)
  {
    if id == POWER_CARD_ID then PowerCardFrame(b)
    else if id == DAC_ID then DacFrame(b)
    else false
  }

  /** The fixed leading bytes each message id's response starts with. */
  function Header(id: byte): seq<byte>
  {
    if id == POWER_CARD_ID then [SYNC, POWER_CARD_ID]
    else if id == DAC_ID then [SYNC, DAC_ID, DAC_SUBCODE]
    else []
  }

  /** The response length each message id expects (0: no rule). */
  function FrameSize(id: byte): nat
  {
    if id == POWER_CARD_ID then POWER_CARD_FRAME_SIZE
    else if id == DAC_ID then DAC_FRAME_SIZE
    else 0
  }

  /**
   * The extraction rule restated on whole frames: a buffer is taken iff the
   * id is one of the two with a rule, the length is exact, the header is
   * there and the XOR of every byte, checksum included, is zero.
   */
  lemma ExtractsIff(id: byte, b: seq<byte>)
    ensures Extracts(id, b) <==>
      (id == POWER_CARD_ID || id == DAC_ID) && |b| == FrameSize(id)
      && b[..|Header(id)|] == Header(id) && XorFold(b) == 0
  {
  }

  /**
   * A response built the way commands are built (header, payload, then the
   * XOR of everything before) is extracted when its length is the expected one.
   */
  lemma BuiltFrameExtracted(id: byte, payload: seq<byte>)
    requires id == POWER_CARD_ID || id == DAC_ID
    requires |Header(id)| + |payload| + 1 == FrameSize(id)
    ensures Extracts(id, Header(id) + payload + [XorFold(Header(id) + payload)])
  {
  }

  /**
   * Only the exact length is ever taken, so once the buffer has grown past
   * the expected size no later append can produce a response until the
   * buffer is cleared.
   */
  lemma OvergrownBufferNeverExtracts(id: byte, b: seq<byte>, more: seq<byte>)
    requires |b| > FrameSize(id)
    ensures !Extracts(id, b + more)
  {
  }

  /** A power-card response is 17 bytes, so its hex can never be `ff0aff`. */
  lemma PowerCardResponseNeverAcks(b: seq<byte>)
    requires PowerCardFrame(b)
    ensures Hex.ToHex(b) != ACK_01_HEX
  {
    Hex.ToHexLength(b);
  }

  // ------------------------------------------------------------ the signals

  /** The ACK/NACK status readData reports for a power-card response. */
  datatype Ack = NoAck | Ack01 | Nack01

  /** What readData writes to the notes log. */
  datatype Note =
    | PowerCardData(frame: seq<byte>)
    | DacData(frame: seq<byte>)
    | Incomplete(required: nat, received: seq<byte>)
    | UnknownMsgId

  /** The note for buffer `b` under message id `id`. */
  function NoteFor(id: byte, b: seq<byte>): Note
  {
    if id == POWER_CARD_ID then
      if PowerCardFrame(b) then PowerCardData(b) else Incomplete(POWER_CARD_FRAME_SIZE, b)
    else if id == DAC_ID then
      if DacFrame(b) then DacData(b) else Incomplete(DAC_FRAME_SIZE, b)
    else UnknownMsgId
  }

  /**
   * What one readData emits: `dataReceived`, the raw buffer it shows, the
   * note it logs, the extracted response (`ResponseData`) and ACK_01/NACK_01.
   */
  datatype ReadEvents = ReadEvents(
    dataReceived: bool, raw: Option<seq<byte>>, note: Option<Note>,
    frame: Option<seq<byte>>, ack: Ack)

  const Quiet := ReadEvents(false, None, None, None, NoAck)

  /** What writeData emits: `dataReceived` and a status line. */
  datatype WriteEvents = WriteEvents(dataReceived: bool, status: Option<string>)

  /** The status line setPORTNAME emits after trying to open the port. */
  datatype PortStatus = OpenFailed(name: string) | Opened(name: string)

  // -------------------------------------------------------------- the class

  class SerialPortHandler {
    /** Everything received since the buffer was last cleared. */
    var buffer: seq<byte>
    /** The message id of the command in flight, set through recvMsgId. */
    var id: byte
    /** Whether the transport reports the port open. */
    var isOpen: bool
    /** Every byte sequence handed to the transport, in order. */
    ghost var writes: seq<seq<byte>>

    /**
     * The handler starts with an empty buffer and a closed port. The source
     * never initialises `id`, so its first value is whatever `initialId` is.
     */
    constructor (initialId: byte)
      ensures buffer == [] && id == initialId && !isOpen && writes == []
    {
      buffer := [];
      id := initialId;
      isOpen := false;
      writes := [];
    }

    /**
     * setPORTNAME: clears the buffer, closes the port if open and reopens it
     * under the new name; whether the open succeeds is the transport's answer.
     */
    method SetPortName(portName: string, openSucceeds: bool) returns (status: PortStatus)
      modifies this`buffer, this`isOpen
      ensures buffer == [] && isOpen == openSucceeds
      ensures status == if openSucceeds then Opened(portName) else OpenFailed(portName)
    {
      buffer := [];
      if isOpen {
        isOpen := false;
      }
      isOpen := openSucceeds;
      if !isOpen {
        status := OpenFailed(portName);
      } else {
        status := Opened(portName);
      }
    }

    /** recvMsgId: makes `newId` the active id and drops whatever was buffered. */
    method RecvMsgId(newId: byte)
      modifies this`id, this`buffer
      ensures id == newId && buffer == []
    {
      id := newId;
      buffer := [];
    }

    /**
     * writeData: on a closed port it signals `dataReceived` (which stops the
     * response timer) and reports that the port is not initialised, writing
     * nothing and leaving the buffer alone; on an open port it clears the
     * buffer and writes `data` exactly as given.
     */
    method WriteData(data: seq<byte>) returns (e: WriteEvents)
      modifies this`buffer, this`writes
      ensures !isOpen ==> e == WriteEvents(true, Some(NOT_INITIALIZED))
      ensures !isOpen ==> buffer == old(buffer) && writes == old(writes)
      ensures isOpen ==> e == WriteEvents(false, None)
      ensures isOpen ==> buffer == [] && writes == old(writes) + [data]
    {
      if !isOpen {
        e := WriteEvents(true, Some(NOT_INITIALIZED));
        return;
      }
      e := WriteEvents(false, None);
      buffer := [];
      writes := writes + [data];
    }

    /**
     * readData, as one atomic step. With nothing available it changes nothing
     * and emits nothing. Otherwise the bytes are appended, `dataReceived`
     * fires, and the appended buffer `b` is either taken whole as the response
     * to the active id (and the buffer cleared) or kept to keep accumulating.
     * A power-card response reports NACK_01; ACK_01 is never reported.
     */
    method ReadData(incoming: seq<byte>) returns (e: ReadEvents)
      modifies this`buffer
      ensures incoming == [] ==> buffer == old(buffer) && e == Quiet
      ensures incoming != [] ==>
        var b := old(buffer) + incoming;
        && e.dataReceived && e.raw == Some(b) && e.note == Some(NoteFor(id, b))
        && (Extracts(id, b) ==> buffer == [] && e.frame == Some(b))
        && (!Extracts(id, b) ==> buffer == b && e.frame == None)
      ensures e.ack != Ack01
      ensures e.ack == Nack01 <==> id == POWER_CARD_ID && e.frame.Some?
    {
      if |incoming| == 0 {
        return Quiet;
      }
      buffer := buffer + incoming;
      var dataReceived := buffer != [];
      var raw := Some(buffer);
      var msgId := id;
      var powerId: byte := 0x00;
      var responseData: seq<byte> := [];
      var note: Note;
      if msgId == POWER_CARD_ID {
        var taken := false;
        if |buffer| == POWER_CARD_FRAME_SIZE && buffer[0] == SYNC && buffer[1] == POWER_CARD_ID {
          var sum := ChkSum(buffer);
          // The length test above keeps chkSum off its error path.
          assert sum.Ok?;
          taken := buffer[16] == sum.value;
        }
        if taken {
          powerId := POWER_CARD_ID;
          responseData := buffer;
          buffer := [];
          note := PowerCardData(responseData);
        } else {
          note := Incomplete(POWER_CARD_FRAME_SIZE, buffer);
        }
      } else if msgId == DAC_ID {
        var taken := false;
        if |buffer| == DAC_FRAME_SIZE && buffer[0] == SYNC && buffer[1] == DAC_ID
          && buffer[2] == DAC_SUBCODE
        {
          var sum := ChkSum(buffer);
          assert sum.Ok?;
          taken := buffer[5] == sum.value;
        }
        if taken {
          powerId := DAC_ID;
          responseData := buffer;
          buffer := [];
          note := DacData(responseData);
        } else {
          note := Incomplete(DAC_FRAME_SIZE, buffer);
        }
      } else {
        note := UnknownMsgId;
      }
      var frame := if powerId != 0x00 then Some(responseData) else None;
      var ack := NoAck;
      if powerId == POWER_CARD_ID {
        PowerCardResponseNeverAcks(responseData);
        if Hex.ToHex(responseData) == ACK_01_HEX {
          ack := Ack01;
        } else {
          ack := Nack01;
        }
      }
      e := ReadEvents(dataReceived, raw, Some(note), frame, ack);
    }
  }

  /**
   * A power-card response delivered in two reads is reassembled: the first
   * part is kept, the second completes it, and the whole frame is extracted.
   */
  method ReassembleFragments(h: SerialPortHandler, first: seq<byte>, rest: seq<byte>)
    returns (e1: ReadEvents, e2: ReadEvents)
    requires h.buffer == [] && h.id == POWER_CARD_ID
    requires 0 < |first| < POWER_CARD_FRAME_SIZE && PowerCardFrame(first + rest)
    modifies h
    ensures e1.frame == None && e1.dataReceived
    ensures e2.frame == Some(first + rest) && e2.ack == Nack01 && h.buffer == []
  {
    e1 := h.ReadData(first);
    assert [] + first == first;
    e2 := h.ReadData(rest);
  }
}

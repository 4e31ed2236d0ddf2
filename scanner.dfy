/**
 * The driver for the imaging barcode scanner: it finds the scanner's serial
 * port, resets the device, asks it to scan, and reads back the captured image
 * as a length-framed byte stream.
 */
module Pbt9500 {
  import opened Wrappers
  import opened Bytes
  import opened Commands
  import opened Framing
  import opened Ports
  import opened Serial

  /** The exceptions that reach the caller of `scan` and `capture_image`. */
  datatype Fault =
    | NoConnection      // the connection is `None`: an attribute error
    | PortNotOpen       // the serial port has not been opened
    | SizeNotHex        // the length field is not a base-16 numeral

  datatype Outcome = Returned | Raised(fault: Fault)

  /** Python's truth value of an optional string: absent and empty are both false. */
  predicate Truthy(s: Option<string>)
    ensures Truthy(s) ==> s.Some? && |s.value| > 0
    ensures s.Some? && |s.value| > 0 ==> Truthy(s)
  {
    s.Some? && s.value != ""
  }

  /** Python's truth value of the image buffer: absent and empty are both false. */
  predicate HasImageData(d: Option<seq<Byte>>)
    ensures HasImageData(d) ==> d.Some? && |d.value| > 0
    ensures d.Some? && |d.value| > 0 ==> HasImageData(d)
  {
    d.Some? && d.value != []
  }

  class Scanner {
    /** Device name of the scanner's port, once found. */
    var port: Option<string>
    /** The serial connection, created once a port is found. */
    var connection: Connection?
    /** The image bytes of the capture in progress. */
    var imgData: Option<seq<Byte>>
    /** Every image buffer passed on to be decoded and saved, oldest first. */
    var handedOff: seq<seq<Byte>>

    /** A connection, when there is one, is bound to the scanner's port. */
    ghost predicate Valid()
      reads this, connection
    {
      connection != null ==> Truthy(port) && connection.port == port
    }

    /** Finds the port, creates the connection, resets the device. */
    constructor (ports: seq<PortInfo>)
      ensures Valid()
      ensures port == FirstScannerPort(ports)
      ensures connection != null <==> Truthy(port)
      ensures connection != null ==> fresh(connection) && !connection.isOpen && connection.pending == [] && connection.written == []
      ensures imgData == None && handedOff == []
    {
      port, connection, imgData, handedOff := None, null, None, [];
      new;
      FindComPort(ports);
      Reset();
    }

    /**
     * Picks the first enumerated port with the scanner's vendor id and, when
     * one was picked, creates an unopened connection bound to it.
     */
    method FindComPort(ports: seq<PortInfo>)
      requires connection == null
      modifies this`port, this`connection
      ensures port == if FirstScannerPort(ports).Some? then FirstScannerPort(ports) else old(port)
      ensures connection != null <==> Truthy(port)
      ensures connection != null ==>
        (fresh(connection) && connection.port == port && !connection.isOpen &&
         connection.pending == [] && connection.written == [])
    {
      for i := 0 to |ports|
        invariant port == old(port)
        invariant forall j :: 0 <= j < i ==> !IsScanner(ports[j])
      {
        if IsScanner(ports[i]) {
          port := Some(ports[i].device);
          FirstScannerPortSkip(ports, i);
          break;
        }
      }
      FirstScannerPortChoice(ports);
      if !Truthy(port) {
        return;
      }
      var c := new Connection();
      c.port := port;
      connection := c;
    }

    /** Binds the connection to the port; without a (truthy) port, nothing happens. */
    method Connect()
      modifies connection
      ensures old(Valid()) ==> Valid()
      ensures connection != null ==>
        (connection.port == (if Truthy(port) then port else old(connection.port)) &&
         connection.isOpen == old(connection.isOpen) &&
         connection.pending == old(connection.pending) && connection.written == old(connection.written))
    {
      if !Truthy(port) {
        return;
      }
      if connection != null {
        connection.port := port;
      }
    }

    /**
     * Drains unread input, clears the image buffer and writes the reset frame.
     * Without an open connection the first step raises and nothing changes.
     */
    method Reset()
      modifies this`imgData, connection
      ensures old(Valid()) ==> Valid()
      ensures connection != null ==> connection.isOpen == old(connection.isOpen) && connection.port == old(connection.port)
      ensures connection != null && old(connection.isOpen) ==>
        connection.pending == [] && connection.written == old(connection.written) + [ResetFrame()] && imgData == None
      ensures connection == null || !old(connection.isOpen) ==>
        imgData == old(imgData) && (connection != null ==> connection.pending == old(connection.pending) && connection.written == old(connection.written))
    {
      if connection == null {
        return;
      }
      var drained := connection.ReadAll();
      if drained.None? {
        return;
      }
      imgData := None;
      var ok := connection.Write(ResetFrame());
    }

    /**
     * Two reads of up to 8 bytes: the header, which is the prefix of the
     * pending input of length `min(16, available)`, and exactly those bytes
     * are consumed. `None` when there is no open connection.
     */
    method ReadMetaData() returns (meta: Option<seq<Byte>>)
      modifies connection
      ensures old(Valid()) ==> Valid()
      ensures connection != null ==>
        (connection.isOpen == old(connection.isOpen) && connection.port == old(connection.port) &&
         connection.written == old(connection.written))
      ensures connection == null || !connection.isOpen ==> meta == None && (connection != null ==> connection.pending == old(connection.pending))
      ensures connection != null && connection.isOpen ==>
        meta == Some(Header(old(connection.pending))) && connection.pending == Drop(old(connection.pending), |meta.value|)
    {
      if connection == null {
        return None;
      }
      var first := connection.Read(HeaderChunk);
      if first.None? {
        return None;
      }
      var second := connection.Read(HeaderChunk);
      TwoReadsMakeHeader(old(connection.pending));
      meta := Some(first.value + second.value);
    }

    /** An empty or absent image buffer is not passed on; any other is. */
    method SaveImage() returns (handed: bool)
      modifies this`handedOff
      ensures old(Valid()) ==> Valid()
      ensures handed == HasImageData(imgData)
      ensures handedOff == if handed then old(handedOff) + [imgData.value] else old(handedOff)
    {
      if !HasImageData(imgData) {
        return false;
      }
      handedOff := handedOff + [imgData.value];
      handed := true;
    }

    /** Binds and opens the port; a port that is already open stays as it is. */
    method Open()
      modifies connection
      ensures old(Valid()) ==> Valid()
      ensures connection != null ==>
        (connection.port == (if Truthy(port) then port else old(connection.port)) &&
         connection.isOpen == (old(connection.isOpen) || connection.port.Some?) &&
         connection.pending == old(connection.pending) && connection.written == old(connection.written))
    {
      Connect();
      if connection == null {
        return;
      }
      var ok := connection.Open();
    }

    /** Resets the device, then closes the port. */
    method Close()
      modifies this`imgData, connection
      ensures old(Valid()) ==> Valid()
      ensures connection != null ==> connection.port == old(connection.port)
      ensures connection != null ==> !connection.isOpen
      ensures connection != null && old(connection.isOpen) ==>
        connection.pending == [] && connection.written == old(connection.written) + [ResetFrame()] && imgData == None
      ensures connection == null || !old(connection.isOpen) ==>
        imgData == old(imgData) && (connection != null ==> connection.pending == old(connection.pending) && connection.written == old(connection.written))
    {
      Reset();
      if connection != null {
        connection.Close();
      }
    }

    /** Writes the scan frame and nothing else. */
    method Scan() returns (o: Outcome)
      modifies connection
      ensures old(Valid()) ==> Valid()
      ensures connection == null ==> o == Raised(NoConnection)
      ensures connection != null ==>
        o == (if connection.isOpen then Returned else Raised(PortNotOpen)) &&
        connection.written == (if o == Returned then old(connection.written) + [ScanFrame()] else old(connection.written)) &&
        connection.isOpen == old(connection.isOpen) && connection.port == old(connection.port) && connection.pending == old(connection.pending)
    {
      if connection == null {
        return Raised(NoConnection);
      }
      var ok := connection.Write(ScanFrame());
      o := if ok then Returned else Raised(PortNotOpen);
    }

    /**
     * Reads the header; stops when it is empty. Otherwise parses the length,
     * skips the line feed, reads the payload one byte at a time, passes it on
     * and resets the device. A length field that is not hexadecimal raises
     * before the reset.
     */
    method CaptureImage() returns (o: Outcome)
      modifies this`imgData, this`handedOff, connection
      ensures old(Valid()) ==> Valid()
      ensures connection != null ==> connection.isOpen == old(connection.isOpen) && connection.port == old(connection.port)
      // No open connection, or nothing pending: nothing is read, written or changed.
      ensures connection == null || !old(connection.isOpen) || old(connection.pending) == [] ==>
        o == Returned && imgData == old(imgData) && handedOff == old(handedOff) &&
        (connection != null ==> connection.pending == old(connection.pending) && connection.written == old(connection.written))
      // The length field does not parse: the header is consumed and the error escapes.
      ensures (connection != null && old(connection.isOpen) && old(connection.pending) != [] &&
               ImageSize(Header(old(connection.pending))).None?) ==>
        o == Raised(SizeNotHex) && imgData == old(imgData) && handedOff == old(handedOff) &&
        connection.pending == Drop(old(connection.pending), |Header(old(connection.pending))|) &&
        connection.written == old(connection.written)
      // A length was found: the payload is passed on, the device reset, the buffer cleared.
      ensures (connection != null && old(connection.isOpen) && old(connection.pending) != [] &&
               ImageSize(Header(old(connection.pending))).Some?) ==>
        var q := old(connection.pending);
        var payload := Payload(Drop(q, |Header(q)|), ImageSize(Header(q)).value);
        o == Returned && imgData == None && connection.pending == [] &&
        connection.written == old(connection.written) + [ResetFrame()] &&
        handedOff == old(handedOff) + (if payload == [] then [] else [payload])
    {
      ghost var valid := Valid();
      var meta := ReadMetaData();
      if meta.None? || meta.value == [] {
        return Returned;
      }
      var size := ImageSize(meta.value);
      if size.None? {
        return Raised(SizeNotHex);
      }
      ghost var rest := connection.pending;
      var lf := connection.Read(1);
      ghost var stream := connection.pending;
      assert stream == Drop(rest, 1);
      var data: seq<Byte> := [];
      var remaining: nat := size.value;
      while remaining != 0
        invariant remaining <= size.value
        invariant connection.isOpen && connection.port == old(connection.port)
        invariant connection.written == old(connection.written)
        invariant data == Take(stream, size.value - remaining)
        invariant connection.pending == Drop(stream, size.value - remaining)
        invariant imgData == old(imgData) && handedOff == old(handedOff)
        invariant valid ==> Valid()
      {
        var b := connection.Read(1);
        TakeDropAdd(stream, size.value - remaining, 1);
        data := data + b.value;
        remaining := remaining - 1;
      }
      assert data == Payload(rest, size.value);
      imgData := Some(data);
      var handed := SaveImage();
      Reset();
      o := Returned;
    }
  }
}

/**
 * Properties of call sequences on a `Scanner`, proved from the contracts of
 * its methods alone, the way a program driving the scanner would use it.
 */
module Sessions {
  import opened Wrappers
  import opened Bytes
  import opened Commands
  import opened Hex
  import opened Framing
  import opened Ports
  import opened Pbt9500

  /** Closing twice writes at most one reset frame, and the port ends closed. */
  method CloseTwice(s: Scanner)
    modifies s`imgData, s.connection
    ensures s.connection != null ==> !s.connection.isOpen
    ensures s.connection != null ==>
      s.connection.written == old(s.connection.written) + (if old(s.connection.isOpen) then [ResetFrame()] else [])
  {
    s.Close();
    s.Close();
  }

  /** Opening an open connection writes nothing and consumes nothing. */
  method OpenTwice(s: Scanner)
    requires s.Valid()
    modifies s.connection
    ensures s.Valid()
    ensures s.connection != null ==>
      (s.connection.isOpen && s.connection.pending == old(s.connection.pending) &&
       s.connection.written == old(s.connection.written))
  {
    s.Open();
    s.Open();
  }

  /** Construct, open and scan: the scan frame is the only frame written. */
  method StartSession(ports: seq<PortInfo>) returns (s: Scanner)
    requires Truthy(FirstScannerPort(ports))
    ensures fresh(s) && s.connection != null && fresh(s.connection)
    ensures s.connection.isOpen && s.connection.pending == [] && s.connection.written == [ScanFrame()]
    ensures s.imgData == None && s.handedOff == []
  {
    s := new Scanner(ports);
    var c := s.connection;
    s.Open();
    var o := s.Scan();
    assert c.written == [] + [ScanFrame()];
  }

  /**
   * The device answers a capture with a header announcing `|image|` bytes, a
   * line feed and the image: a non-empty image is passed on whole and an
   * empty one not at all; the reset frame follows, and the buffer ends empty.
   */
  method AnswerCapture(s: Scanner, lead: seq<Byte>, tail: seq<Byte>, image: seq<Byte>)
    requires s.connection != null && s.connection.isOpen && s.connection.pending == []
    requires |lead| == 4 && |tail| == 4 && |image| < 0x1_0000_0000
    modifies s`imgData, s`handedOff, s.connection
    ensures s.connection != null && s.connection.isOpen && s.connection.pending == []
    ensures s.connection.written == old(s.connection.written) + [ResetFrame()]
    ensures s.handedOff == old(s.handedOff) + (if image == [] then [] else [image])
    ensures s.imgData == None
  {
    var c := s.connection;
    var header := lead + ToHex(|image|, 8) + tail;
    AnswerFraming(lead, tail, image);
    c.Receive(header + [0x0A] + image);
    assert c.pending == [] + (header + [0x0A] + image);
    var o := s.CaptureImage();
  }

  /**
   * A composed scenario: construct, open, scan, then capture the answer. No
   * code in the repository calls `capture_image`; the demo driver only loops
   * on `scan`. Two frames are written, the scan frame and then the reset
   * frame, and the image the device sent is the one passed on when it is
   * non-empty; an empty image is not passed on.
   */
  method ScanCycle(ports: seq<PortInfo>, lead: seq<Byte>, tail: seq<Byte>, image: seq<Byte>) returns (s: Scanner)
    requires Truthy(FirstScannerPort(ports))
    requires |lead| == 4 && |tail| == 4 && |image| < 0x1_0000_0000
    ensures s.connection != null && s.connection.written == [ScanFrame(), ResetFrame()]
    ensures s.handedOff == (if image == [] then [] else [image])
    ensures s.imgData == None && s.connection.pending == []
  {
    s := StartSession(ports);
    AnswerCapture(s, lead, tail, image);
    assert s.connection.written == [ScanFrame()] + [ResetFrame()];
  }

  /** How the answer to a capture splits into header, line feed and payload. */
  lemma AnswerFraming(lead: seq<Byte>, tail: seq<Byte>, image: seq<Byte>)
    requires |lead| == 4 && |tail| == 4 && |image| < 0x1_0000_0000
    ensures var header := lead + ToHex(|image|, 8) + tail;
      var q := [] + (header + [0x0A] + image);
      q != [] && Header(q) == header && ImageSize(header) == Some(|image|) &&
      Payload(Drop(q, |header|), |image|) == image
  {
    var header := lead + ToHex(|image|, 8) + tail;
    var q := [] + (header + [0x0A] + image);
    HeaderRoundTrip(lead, |image|, tail);
    assert q[..16] == header;
    assert Drop(q, 16) == [0x0A] + image;
    assert Drop([0x0A] + image, 1) == image;
  }
}

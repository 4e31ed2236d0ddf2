/**
 * The command frames the scanner driver writes to the device: an ASCII
 * opcode followed by a carriage return and a line feed.
 */
module Commands {
  import opened Wrappers
  import opened Bytes

  const CR: Byte := 0x0D
  const LF: Byte := 0x0A

  /** Opcode written by the reset routine. */
  const ResetOpcode: string := "x040000000000"
  /** Opcode written by `scan`. */
  const ScanOpcode: string := "x018000000000"

  predicate IsAscii(s: string)
  {
    forall i :: 0 <= i < |s| ==> s[i] < 128 as char
  }

  /** `s.encode('ascii')` for a string that has only ASCII characters. */
  function EncodeAscii(s: string): (r: seq<Byte>)
    requires IsAscii(s)
    ensures |r| == |s|
    ensures forall i :: 0 <= i < |s| ==> r[i] == s[i] as int
  {
    seq(|s|, i requires 0 <= i < |s| && IsAscii(s) => s[i] as int)
  }

  /** `b.decode('ascii')`: fails on any byte of 128 or more. */
  function DecodeAscii(b: seq<Byte>): (r: Option<string>)
    ensures r.Some? <==> forall i :: 0 <= i < |b| ==> b[i] < 128
    ensures r.Some? ==> |r.value| == |b| && forall i :: 0 <= i < |b| ==> r.value[i] == b[i] as char
  {
    if forall i :: 0 <= i < |b| ==> b[i] < 128 then Some(seq(|b|, i requires 0 <= i < |b| => b[i] as char))
    else None
  }

  /** An opcode followed by the CR LF stop bytes. */
  function Frame(opcode: string): (f: seq<Byte>)
    requires IsAscii(opcode)
    ensures |f| == |opcode| + 2 && f[|opcode|] == CR && f[|opcode| + 1] == LF
    ensures forall i :: 0 <= i < |opcode| ==> f[i] == opcode[i] as int
  {
    EncodeAscii(opcode) + [CR, LF]
  }

  function ResetFrame(): (f: seq<Byte>)
    ensures |f| == 15 && f[13] == CR && f[14] == LF
  {
    Frame(ResetOpcode)
  }

  function ScanFrame(): (f: seq<Byte>)
    ensures |f| == 15 && f[13] == CR && f[14] == LF
  {
    Frame(ScanOpcode)
  }

  /** Reads an opcode back from a frame; `None` unless the frame ends in CR LF and is ASCII. */
  function DecodeFrame(f: seq<Byte>): (r: Option<string>)
  {
    if |f| >= 2 && f[|f| - 2] == CR && f[|f| - 1] == LF then DecodeAscii(f[..|f| - 2])
    else None
  }

  /** Decoding the ASCII encoding of a string gives the string back. */
  lemma DecodeEncodeAscii(s: string)
    requires IsAscii(s)
    ensures DecodeAscii(EncodeAscii(s)) == Some(s)
  {
    var e := EncodeAscii(s);
    assert forall i :: 0 <= i < |e| ==> e[i] < 128;
    var d := DecodeAscii(e).value;
    assert forall i :: 0 <= i < |s| ==> d[i] == s[i];
    assert d == s;
  }

  /** Decoding a frame gives back the opcode it was built from. */
  lemma FrameRoundTrip(opcode: string)
    requires IsAscii(opcode)
    ensures DecodeFrame(Frame(opcode)) == Some(opcode)
  {
    var f := Frame(opcode);
    assert f[..|f| - 2] == EncodeAscii(opcode);
    DecodeEncodeAscii(opcode);
  }

  /** Distinct opcodes give distinct frames. */
  lemma FrameInjective(a: string, b: string)
    requires IsAscii(a) && IsAscii(b) && a != b
    ensures Frame(a) != Frame(b)
  {
    FrameRoundTrip(a);
    FrameRoundTrip(b);
  }

  lemma EncodeAsciiIs(s: string, b: seq<Byte>)
    requires IsAscii(s) && |b| == |s|
    requires forall i :: 0 <= i < |s| ==> b[i] == s[i] as int
    ensures EncodeAscii(s) == b
  {
  }

  lemma OpcodesAreAscii()
    ensures IsAscii(ResetOpcode) && IsAscii(ScanOpcode)
  {
  }

  /** The reset frame is exactly the bytes of `x040000000000\r\n`. */
  lemma ResetFrameBytes()
    ensures ResetFrame() == [0x78, 0x30, 0x34, 0x30, 0x30, 0x30, 0x30, 0x30, 0x30, 0x30, 0x30, 0x30, 0x30, 0x0D, 0x0A]
  {
    OpcodesAreAscii();
  }

  /** The scan frame is exactly the bytes of `x018000000000\r\n`. */
  lemma ScanFrameBytes()
    ensures ScanFrame() == [0x78, 0x30, 0x31, 0x38, 0x30, 0x30, 0x30, 0x30, 0x30, 0x30, 0x30, 0x30, 0x30, 0x0D, 0x0A]
  {
    OpcodesAreAscii();
  }

  /** The device can tell the two frames apart, and a reset is never mistaken for a scan. */
  lemma ResetIsNotScan()
    ensures ResetFrame() != ScanFrame()
    ensures DecodeFrame(ResetFrame()) == Some(ResetOpcode)
    ensures DecodeFrame(ScanFrame()) == Some(ScanOpcode)
  {
    OpcodesAreAscii();
    FrameRoundTrip(ResetOpcode);
    FrameRoundTrip(ScanOpcode);
    FrameInjective(ResetOpcode, ScanOpcode);
  }
}

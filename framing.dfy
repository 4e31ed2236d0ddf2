/**
 * What the driver reads back after a capture: a metadata header of at most
 * 16 bytes, whose bytes [4, 12) give the payload length in hexadecimal,
 * then one line feed, then the payload itself.
 */
module Framing {
  import opened Wrappers
  import opened Bytes
  import opened Hex
  import Commands

  /** Each of the two header reads asks for this many bytes. */
  const HeaderChunk: nat := 8
  /** The length field sits at header offsets [4, 12). */
  const SizeFieldStart: nat := 4
  const SizeFieldEnd: nat := 12

  /** The metadata header a stream yields: at most 16 bytes from its front. */
  function Header(q: seq<Byte>): (h: seq<Byte>)
    ensures |h| == Min(16, |q|)
    ensures h == q[..|h|]
  {
    Take(q, 2 * HeaderChunk)
  }

  /** Python's `s[lo:hi]` for `0 <= lo <= hi`: the bounds are clipped to the length. */
  function Slice<T>(s: seq<T>, lo: nat, hi: nat): (r: seq<T>)
    requires lo <= hi
    ensures |r| == Min(hi, |s|) - Min(lo, |s|)
    ensures forall i :: 0 <= i < |r| ==> r[i] == s[lo + i]
  {
    s[Min(lo, |s|)..Min(hi, |s|)]
  }

  /** `meta_data[4:12]`. */
  function SizeField(meta: seq<Byte>): (f: seq<Byte>)
    ensures |f| <= SizeFieldEnd - SizeFieldStart
    ensures |meta| >= SizeFieldEnd ==> f == meta[SizeFieldStart..SizeFieldEnd]
    ensures |meta| <= SizeFieldStart ==> f == []
  {
    Slice(meta, SizeFieldStart, SizeFieldEnd)
  }

  /** `int(meta_data[4:12].decode('ascii'), 16)`; `None` where Python raises. */
  function ImageSize(meta: seq<Byte>): (r: Option<nat>)
    ensures r.Some? ==> |meta| > SizeFieldStart && AllHexDigits(SizeField(meta))
    ensures r.Some? ==> r.value < Pow16(|SizeField(meta)|)
  {
    ParseHex(SizeField(meta))
  }

  /** The payload read from what follows the header: the line feed skipped, then `size` bytes at most. */
  function Payload(rest: seq<Byte>, size: nat): (p: seq<Byte>)
    ensures |p| == Min(size, |rest| - Min(1, |rest|))
    ensures forall i :: 0 <= i < |p| ==> p[i] == rest[i + 1]
  {
    Take(Drop(rest, 1), size)
  }

  /** Two reads of up to 8 bytes take exactly the header off the stream. */
  lemma TwoReadsMakeHeader(q: seq<Byte>)
    ensures Take(q, HeaderChunk) + Take(Drop(q, HeaderChunk), HeaderChunk) == Header(q)
    ensures Drop(Drop(q, HeaderChunk), HeaderChunk) == Drop(q, |Header(q)|)
  {
    TakeDropAdd(q, HeaderChunk, HeaderChunk);
  }

  /** The header is the in-order prefix of the stream, 16 bytes long unless the stream is shorter. */
  lemma HeaderShape(q: seq<Byte>)
    ensures |Header(q)| <= 16
    ensures Header(q) == q[..|Header(q)|]
    ensures |Header(q)| == 16 || Header(q) == q
  {
  }

  /**
   * A length is found exactly when the header reaches into the field and the
   * part present is all digits; it then fits in 32 bits.
   */
  lemma ImageSizeDefined(meta: seq<Byte>)
    ensures ImageSize(meta).Some? <==> |meta| > SizeFieldStart && AllHexDigits(meta[SizeFieldStart..Min(SizeFieldEnd, |meta|)])
    ensures ImageSize(meta).Some? ==> ImageSize(meta).value < 0x1_0000_0000
  {
    var f := SizeField(meta);
    assert f == meta[Min(SizeFieldStart, |meta|)..Min(SizeFieldEnd, |meta|)];
    if ImageSize(meta).Some? {
      Pow16Monotone(|f|, 8);
      assert Pow16(8) == 0x1_0000_0000;
    }
  }

  /** A header carrying the 8-digit numeral of `n` at offsets [4, 12) yields `n`. */
  lemma HeaderRoundTrip(lead: seq<Byte>, n: nat, tail: seq<Byte>)
    requires |lead| == SizeFieldStart && |tail| <= 4
    requires n < 0x1_0000_0000
    ensures ImageSize(lead + ToHex(n, 8) + tail) == Some(n)
  {
    var meta := lead + ToHex(n, 8) + tail;
    assert SizeField(meta) == ToHex(n, 8);
    assert Pow16(8) == 0x1_0000_0000;
    ParseToHex(n, 8);
  }

  /** A header whose bytes [4, 12) are the digits `00000010` announces 16 payload bytes. */
  lemma SixteenByteExample(lead: seq<Byte>, tail: seq<Byte>)
    requires |lead| == SizeFieldStart && |tail| <= 4
    ensures ImageSize(lead + Commands.EncodeAscii("00000010") + tail) == Some(16)
  {
    var text := "00000010";
    var digits: seq<Byte> := [0x30, 0x30, 0x30, 0x30, 0x30, 0x30, 0x31, 0x30];
    assert forall i :: 0 <= i < |text| ==> digits[i] == text[i] as int;
    Commands.EncodeAsciiIs(text, digits);
    assert SizeField(lead + digits + tail) == digits;
    var zeros: seq<Byte> := [0x30, 0x30, 0x30, 0x30, 0x30, 0x30];
    AllZeros(zeros);
    assert digits[..7][..6] == zeros;
    assert HexValue(digits[..7]) == 1;
  }

  /**
   * The payload is the in-order prefix of the input after the line feed, of
   * length `min(size, available)`: a short stream shortens it and nothing pads it.
   */
  lemma PayloadShape(rest: seq<Byte>, size: nat)
    ensures |Payload(rest, size)| <= size
    ensures rest != [] ==> Payload(rest, size) == rest[1..1 + |Payload(rest, size)|]
    ensures |Payload(rest, size)| == Min(size, if rest == [] then 0 else |rest| - 1)
    ensures |Payload(rest, size)| == size <==> |rest| > size || size == 0
  {
  }
}

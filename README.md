# Datalogic PBT9500 scanner driver, modelled in Dafny

This project models the `Scanner` class of `pbt9500.py`. The class drives a
Datalogic PBT9500 imaging barcode scanner over a virtual serial port. It
picks the port whose USB vendor id is 1529 and creates an unopened
connection bound to it. It resets the device with the frame
`x040000000000\r\n` and asks it to scan with `x018000000000\r\n`. It then
reads back a captured image: a metadata header of two reads of up to 8 bytes,
whose bytes [4, 12) hold the image length in hexadecimal, then one line-feed
byte, then the image, read one byte at a time.

The serial connection is modelled as an abstract, timeout-bounded byte queue
(`Serial.Connection`). It holds the bytes the device has sent and the driver
has not read (`pending`), a log of the frames written (`written`), an open
flag and the port name. A read of `n` bytes returns the next
`min(n, available)` bytes, `read_all` drains the queue, and `write` appends
a frame to the log. As in pyserial, reading or writing on a closed port
raises, opening an open port raises, and closing a closed port does nothing.
`Connection.Receive` stands for the device sending bytes. It is not part of
the driver; the session proofs use it to supply the device's answer.

`Scanner` is a class whose fields `port`, `connection` and `imgData` are
updated by its methods, as in the Python class. A fourth field, `handedOff`,
records the image buffers passed on to be decoded and saved, which stands in
for the file writer. Python's `try/except` blocks that log and swallow an
exception become "the operation has no effect". Exceptions that reach the
caller (from `scan`, and from the length parse in `capture_image`) become an
`Outcome` value. `int(..., 16)` is modelled as strict base-16 digits.

Modules: `Wrappers` (Option), `Bytes` (bytes, take/drop), `Commands`
(command frames), `Hex` (base-16 numerals), `Framing` (header, length field,
payload), `Ports` (port selection), `Serial` (the connection), `Pbt9500` (the
scanner), `Sessions` (call sequences proved from the method contracts).

Facts about the code that the model keeps:
- `scan` sends `x018000000000` (pbt9500.py:138). The comment at
  pbt9500.py:136 calls `x008000000000` "Automatic Image", and the comment
  at :137 calls `x018300000000` "With Trigger". Neither of these is sent.
- `capture_image` has no `try` around the length parse (pbt9500.py:151). A
  length field that is not hexadecimal raises before the trailing
  `__reset__` (pbt9500.py:167), so no reset frame is written in that case.
- `capture_image` returns quietly when the header is empty
  (pbt9500.py:147-149). A header shorter than 16 bytes is not rejected.
  Python's `[4:12]` slice takes whatever part of that range it has, and that
  part is parsed (pbt9500.py:151).
- The payload loop performs exactly `img_size` reads of one byte and
  concatenates what they return (pbt9500.py:157-160). A short read adds
  nothing, so the payload is whatever `min(size, available)` bytes arrive.
  No marker records that the payload came up short.
- The reset in `__init__` (pbt9500.py:31) runs before the port is opened. Its
  `read_all` raises, the exception is swallowed, and no reset frame is sent.
  `open` does not reset either (pbt9500.py:116-121), so the first frame the
  device receives is a scan frame (`Sessions.StartSession`).

## Model

| member | source | states |
|---|---|---|
| Commands.EncodeAscii | pbt9500.py:78 | `encode('ascii')` of an ASCII string: one byte per character, the byte being the character's code |
| Commands.Frame | pbt9500.py:78-80 | a command frame is the opcode's bytes followed by CR (0x0D) and LF (0x0A), two bytes longer than the opcode |
| Commands.ResetFrame | pbt9500.py:78-80 | the reset frame, 15 bytes ending in CR LF |
| Commands.ScanFrame | pbt9500.py:138-140 | the scan frame, 15 bytes ending in CR LF |
| Commands.DecodeEncodeAscii | pbt9500.py:78 | decoding the ASCII encoding of a string gives the string back |
| Commands.FrameRoundTrip | pbt9500.py:78-80 | a command frame is the opcode followed by CR LF; decoding the frame recovers the opcode |
| Commands.FrameInjective | pbt9500.py:138-140 | distinct opcodes give distinct frames |
| Commands.ResetFrameBytes | pbt9500.py:78-80 | the reset frame is exactly the 15 bytes `x040000000000\r\n` |
| Commands.ScanFrameBytes | pbt9500.py:138-140 | the scan frame is exactly the 15 bytes `x018000000000\r\n` |
| Commands.ResetIsNotScan | pbt9500.py:138-142 | the reset and scan frames differ, and each decodes to its own opcode |
| Hex.ToUpper | pbt9500.py:151 | making a digit upper-case keeps it a digit and keeps its value |
| Hex.Upper | pbt9500.py:151 | a numeral digit by digit in upper case |
| Hex.HexValue | pbt9500.py:151 | a numeral of k hex digits has a value below 16^k |
| Hex.ParseHex | pbt9500.py:151 | the parse succeeds exactly when the text is non-empty and all hex digits, and the value is below 16^length |
| Hex.ToHex | pbt9500.py:151 | the encoder of fixed-width numerals gives `width` hex digits (the inverse used by the round trip) |
| Hex.ParseToHex | pbt9500.py:151 | every value below 16^width is read back from its width-digit numeral |
| Hex.HexValueToHex | pbt9500.py:151 | the value of the width-digit numeral of n is n, for n below 16^width |
| Hex.HexValueIgnoresCase | pbt9500.py:151 | lower-case digits `a`-`f` are worth what `A`-`F` are: making a numeral upper-case keeps its value |
| Hex.ToHexHexValue | pbt9500.py:151 | every numeral the parser accepts, in either case, is the fixed-width numeral of its value once made upper-case, so each digit has its base-16 value |
| Hex.LowerCaseExamples | pbt9500.py:151 | `a` parses to 10 and `fF` to 255 |
| Hex.AllZeros | pbt9500.py:151 | a numeral made only of `0` digits is worth 0 |
| Hex.LeadingZeros | pbt9500.py:151 | zeros put in front of a numeral do not change its value |
| Hex.Pow16Monotone | pbt9500.py:151 | more digits never allow a smaller range of values |
| Framing.Header | pbt9500.py:88-89 | the header is the first `min(16, available)` bytes of the pending input |
| Framing.Slice | pbt9500.py:151 | Python's `s[lo:hi]`: both bounds clipped to the length, elements taken in order from `lo` |
| Framing.SizeField | pbt9500.py:151 | `meta_data[4:12]`: at most 8 bytes, exactly bytes 4 to 11 of a header of 12 bytes or more, empty for a header of 4 bytes or fewer |
| Framing.ImageSize | pbt9500.py:151 | `int(meta_data[4:12].decode('ascii'), 16)`: a size exists only when the header reaches past offset 4 and its size field is all hex digits, and it is below 16 to the power of the field's length |
| Framing.Payload | pbt9500.py:154-163 | the bytes after the line feed, `min(size, available)` of them, in order |
| Framing.TwoReadsMakeHeader | pbt9500.py:88-89 | two reads of up to 8 bytes give the header, the first `min(16, available)` bytes, and consume exactly those bytes |
| Framing.HeaderShape | pbt9500.py:88-89 | the header is the in-order prefix of the input, 16 bytes long unless the input is shorter |
| Framing.ImageSizeDefined | pbt9500.py:151 | a length is found exactly when the header reaches past offset 4 and its part of [4, 12) is all hex digits; the length is below 2^32 |
| Framing.HeaderRoundTrip | pbt9500.py:151 | a header with the 8-digit numeral of n at [4, 12) yields n, for any 4 leading and up to 4 trailing bytes |
| Framing.SixteenByteExample | pbt9500.py:151 | the field digits `00000010` give an image size of 16 |
| Framing.PayloadShape | pbt9500.py:154-163 | after the line feed, the payload is the in-order prefix of the remaining input, of length `min(size, available)`; it has the full size exactly when enough input is there, and it is never padded |
| Ports.FirstScannerPort | pbt9500.py:45-49 | the device name of a port with vendor id 1529 when there is one; `None` only when no port has that id |
| Ports.FirstScannerPortChoice | pbt9500.py:45-49 | a port is chosen exactly when some enumerated port has vendor id 1529, and the chosen one is the first such port |
| Ports.FirstScannerPortSkip | pbt9500.py:45-49 | skipping leading ports that do not match leaves the choice unchanged |
| Serial.Connection.constructor | pbt9500.py:55 | a new connection has no port, is closed, has no pending input and has written nothing |
| Serial.Connection.Read | pbt9500.py:88 | `read(n)` returns the next `min(n, available)` bytes and removes them; on a closed port it fails and changes nothing |
| Serial.Connection.ReadAll | pbt9500.py:75 | `read_all()` returns and removes all pending input; on a closed port it fails and changes nothing |
| Serial.Connection.Write | pbt9500.py:81 | `write` appends the frame to the log when the port is open; otherwise it fails and logs nothing |
| Serial.Connection.Open | pbt9500.py:119 | `open()` succeeds exactly when the port is closed and a port name is assigned |
| Serial.Connection.Close | pbt9500.py:129 | `close()` leaves the port closed |
| Pbt9500.Truthy | pbt9500.py:51 | Python's truth value of `self.port`: true exactly for a present, non-empty name (also used at :61) |
| Pbt9500.HasImageData | pbt9500.py:95 | Python's truth value of `self.img_data`: true exactly for a present, non-empty buffer |
| Pbt9500.Scanner.constructor | pbt9500.py:21-31 | the port is the first port with vendor id 1529; a closed, empty connection exists exactly when that name is non-empty; the image buffer is None; the reset on the closed port writes nothing |
| Pbt9500.Scanner.FindComPort | pbt9500.py:42-58 | the first matching port is chosen, else the port stays as it was; a fresh unopened connection bound to it is created exactly when the port name is truthy |
| Pbt9500.Scanner.Connect | pbt9500.py:60-70 | with a truthy port the connection is bound to it, and nothing else changes; without a port nothing changes at all; a connection bound to the port stays bound |
| Pbt9500.Scanner.Reset | pbt9500.py:72-84 | on an open connection: all unread input is discarded, the image buffer is None, and exactly the reset frame is appended to the log; otherwise nothing changes |
| Pbt9500.Scanner.ReadMetaData | pbt9500.py:86-92 | on an open connection: the result is the header (the prefix of the pending input of length `min(16, available)`) and exactly those bytes are consumed; otherwise None and nothing is consumed |
| Pbt9500.Scanner.SaveImage | pbt9500.py:94-97 | the buffer is passed on exactly when it is present and non-empty |
| Pbt9500.Scanner.Open | pbt9500.py:116-121 | after binding, an existing connection is open exactly when it already was or has a port name; no input is consumed and nothing is written, so opening an open port is a no-op |
| Pbt9500.Scanner.Close | pbt9500.py:123-132 | the reset effect on an open port, then the port is closed; on a closed port only the closing happens |
| Pbt9500.Scanner.Scan | pbt9500.py:134-142 | exactly the scan frame is appended to the log; nothing is read and no field changes; without a connection or with a closed port the error escapes and nothing is written |
| Pbt9500.Scanner.CaptureImage | pbt9500.py:144-167 | with no open connection or no pending input, nothing changes; with a non-hex length field, the error escapes after the header is consumed and nothing is written; otherwise the line feed and `size` single-byte reads follow, the payload is handed off if non-empty, and the capture ends with an empty queue, the image buffer None and the reset frame as the last frame written |
| Sessions.CloseTwice | pbt9500.py:123-132 | two closes write at most one reset frame and leave the port closed |
| Sessions.OpenTwice | pbt9500.py:116-121 | two opens leave the port open and write and consume nothing |
| Sessions.StartSession | pbt9500.py:21-31 | constructing, opening and scanning writes exactly the scan frame |
| Sessions.AnswerFraming | pbt9500.py:145-163 | an answer made of a header announcing n bytes, a line feed and n image bytes splits back into exactly that header, that length and that image |
| Sessions.AnswerCapture | pbt9500.py:144-167 | capturing such an answer hands off the image whole when it is non-empty and nothing for an empty image, appends the reset frame and leaves the buffer empty |
| Sessions.ScanCycle | pbt9500.py:134-167 | a composed scenario, since no code in the repository calls `capture_image` after `scan`: construct, open, scan and capture write the scan frame and then the reset frame, and hand off the image the device sent whole when it is non-empty, and nothing for an empty image |

## Left out

- Image decoding with PIL, the timestamped file name and the file write in `__save_image__` (pbt9500.py:99-107), and `set_image_path` and `img_path` (pbt9500.py:28, 109-114): these are file I/O and foreign libraries. Only the empty-buffer guard is modelled, and a buffer that passes it is recorded in `handedOff`. A decode or write failure, which the code swallows, is not modelled.
- `time.sleep` pacing (pbt9500.py:82, 164): timing only, with no logical effect.
- Logging setup, the log calls, `__logger_test__` and `__str__` (pbt9500.py:12-16, 22-23, 33-39).
- Port enumeration by `comports()`: the port list is a parameter of the constructor. The baud settings and the real read timeout are not modelled. A read returns what is queued, which is the abstract meaning of "whatever arrives before the timeout". Opening is assumed to succeed when pyserial's own checks pass; an operating-system failure to open the device is not modelled.
- pyserial's port setter closes and reopens an open port when it is assigned (pbt9500.py:67). The model treats the assignment as a plain field update, so any input lost by the reopen is not modelled. Closing the port keeps the queued input in the model.
- Exceptions that the model has no cause for inside the swallowed `try` blocks, such as a failure of `serial.Serial(timeout=3)` itself (pbt9500.py:55).
- Python's lenient `int(..., 16)` (surrounding whitespace, a sign, underscores, a `0x` prefix) is not modelled; only plain hex digits parse. A signed field such as `-0000001` would give a negative size, which the `while img_size` loop would never count down to zero.
- `scanner_poc.py`, an endless driver loop that only calls `scan` (scanner_poc.py:18-20). There is nothing to verify in it. `Sessions.ScanCycle` is a composed scenario of scan followed by capture, which no code in the repository performs.
- Pbt9500.Scanner.FindComPort: requires that no connection exists yet. This is the state `__init__` calls it in, its only caller. Calling it a second time is not modelled.
- Sessions.OpenTwice: requires `Valid()`, meaning an existing connection is bound to the scanner's truthy port name. The constructor establishes this, and every method of `Scanner` states that it preserves it (`ensures old(Valid()) ==> Valid()`).

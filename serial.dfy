/**
 * The serial connection, seen from the driver: a queue of bytes the device
 * has sent and the driver has not yet read, a log of the frames the driver
 * has written, whether the port is open, and the port name it is bound to.
 * A read waits at most the read timeout, so within one call it yields what
 * is queued, up to the number of bytes asked for.
 */
module Serial {
  import opened Wrappers
  import opened Bytes

  class Connection {
    /** The port name; `None` until the driver assigns one. */
    var port: Option<string>
    var isOpen: bool
    /** Bytes received from the device and not yet read, oldest first. */
    var pending: seq<Byte>
    /** Every frame written, oldest first. */
    var written: seq<seq<Byte>>

    /** A connection object that is configured with a timeout but not yet bound or opened. */
    constructor ()
      ensures port == None && !isOpen && pending == [] && written == []
    {
      port, isOpen, pending, written := None, false, [], [];
    }

    /** The device sends `bytes`; they queue up behind what is already pending. */
    method Receive(bytes: seq<Byte>)
      modifies this`pending
      ensures pending == old(pending) + bytes
    {
      pending := pending + bytes;
    }

    /** `read(n)`: at most `n` bytes from the front of the queue; a closed port raises (`None`). */
    method Read(n: nat) returns (r: Option<seq<Byte>>)
      modifies this`pending
      ensures !isOpen ==> r == None && pending == old(pending)
      ensures isOpen ==> r == Some(Take(old(pending), n)) && pending == Drop(old(pending), n)
    {
      if !isOpen {
        return None;
      }
      r := Some(Take(pending, n));
      pending := Drop(pending, n);
    }

    /** `read_all()`: the whole queue; a closed port raises (`None`). */
    method ReadAll() returns (r: Option<seq<Byte>>)
      modifies this`pending
      ensures !isOpen ==> r == None && pending == old(pending)
      ensures isOpen ==> r == Some(old(pending)) && pending == []
    {
      if !isOpen {
        return None;
      }
      r := Some(pending);
      pending := [];
    }

    /** `write(frame)`: appends the frame to the log; a closed port raises (`false`). */
    method Write(frame: seq<Byte>) returns (ok: bool)
      modifies this`written
      ensures ok == isOpen
      ensures written == if ok then old(written) + [frame] else old(written)
    {
      ok := isOpen;
      if ok {
        written := written + [frame];
      }
    }

    /** `open()`: raises (`false`) when already open or when no port is assigned. */
    method Open() returns (ok: bool)
      modifies this`isOpen
      ensures ok == (!old(isOpen) && port.Some?)
      ensures isOpen == (old(isOpen) || ok)
    {
      ok := !isOpen && port.Some?;
      if ok {
        isOpen := true;
      }
    }

    /** `close()`: closing a closed port does nothing. */
    method Close()
      modifies this`isOpen
      ensures !isOpen
    {
      isOpen := false;
    }
  }
}

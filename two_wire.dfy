/**
 * An abstract two-wire (I2C) bus, the part of Arduino's `TwoWire` the driver
 * uses: write transactions built with beginTransmission / write /
 * endTransmission, and reads through requestFrom / available / read.
 *
 * What the bus has done is one log of events, oldest first. What the devices
 * on it answer is input from outside the program, so it is given as two
 * oracle functions fixed when the bus is created, indexed by the position in
 * the log at which the question is asked.
 */
module TwoWire {
  import opened Bits

  /** One thing that happened on the bus. */
  datatype Event =
    /** A write transaction: device address, then the bytes written. */
    | Sent(address: uint8, payload: seq<uint8>)
    /** A read request for `quantity` bytes from a device. */
    | Requested(address: uint8, quantity: nat)

  /** At most the first n elements of s. */
  function Take<T>(s: seq<T>, n: nat): (r: seq<T>)
    ensures r <= s
    ensures |r| == if |s| <= n then |s| else n
  {
    if |s| <= n then s else s[..n]
  }

  class Wire {
    /** Every completed transaction and read request, oldest first. */
    var log: seq<Event>
    /** Address and bytes of the write transaction being built. */
    var txAddress: uint8
    var txBuffer: seq<uint8>
    /** Bytes received and not yet read. */
    var rx: seq<uint8>

    /** The bytes a device sends back for a read request made at log position n. */
    const replyAt: nat -> seq<uint8>
    /** The status endTransmission reports for a transaction closed at log position n (0: acknowledged). */
    const statusAt: nat -> uint8

    constructor (replyAt: nat -> seq<uint8>, statusAt: nat -> uint8)
      ensures log == [] && txAddress == 0 && txBuffer == [] && rx == []
      ensures this.replyAt == replyAt && this.statusAt == statusAt
    {
      log, txAddress, txBuffer, rx := [], 0, [], [];
      this.replyAt, this.statusAt := replyAt, statusAt;
    }

    /** What arrives for a request of `quantity` bytes made at log position n: no more than asked for. */
    function ReplyAt(n: nat, quantity: nat): (q: seq<uint8>)
      ensures |q| <= quantity && q <= replyAt(n)
    {
      Take(replyAt(n), quantity)
    }

    /** What arrives for the next request of `quantity` bytes. */
    function NextReply(quantity: nat): seq<uint8>
      reads this
    {
      ReplyAt(|log|, quantity)
    }

    /** The status the next endTransmission reports. */
    function NextStatus(): uint8
      reads this
    {
      statusAt(|log|)
    }

    method BeginTransmission(address: uint8)
      modifies this`txAddress, this`txBuffer
      ensures txAddress == address && txBuffer == []
    {
      txAddress, txBuffer := address, [];
    }

    method Write(b: uint8)
      modifies this`txBuffer
      ensures txBuffer == old(txBuffer) + [b]
    {
      txBuffer := txBuffer + [b];
    }

    /** Closes the write transaction to txAddress with the bytes queued since it began. */
    method EndTransmission() returns (status: uint8)
      modifies this`log, this`txBuffer
      ensures status == old(NextStatus())
      ensures log == old(log) + [Sent(txAddress, old(txBuffer))]
      ensures txBuffer == []
    {
      status := statusAt(|log|);
      log := log + [Sent(txAddress, txBuffer)];
      txBuffer := [];
    }

    /** Asks a device for `quantity` bytes; what it sends replaces the receive queue. */
    method RequestFrom(address: uint8, quantity: nat)
      modifies this`log, this`rx
      ensures rx == old(NextReply(quantity))
      ensures log == old(log) + [Requested(address, quantity)]
    {
      rx := ReplyAt(|log|, quantity);
      log := log + [Requested(address, quantity)];
    }

    method Available() returns (n: nat)
      ensures n == |rx|
    {
      n := |rx|;
    }

    /** The next received byte; on an empty queue the byte returned is not specified. */
    method Read() returns (b: uint8)
      modifies this`rx
      ensures old(rx) != [] ==> b == old(rx[0]) && rx == old(rx[1..])
      ensures old(rx) == [] ==> rx == []
    {
      if rx != [] {
        b, rx := rx[0], rx[1..];
      } else {
        b :| true;
      }
    }
  }
}

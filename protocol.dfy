/**
 * The bus sequences the driver issues to the gauge, what the gauge makes of
 * them, and what the driver makes of the bytes it reads back.
 *
 * The gauge side is read off the log: a write [r, d0, d1, ...] to the gauge
 * points the gauge at register r and stores d0, d1, ... in r, r + 1, ...;
 * an address-only write or a read request changes neither.
 */
module Protocol {
  import opened Bits
  import opened Registers
  import opened TwoWire
  import opened Wrappers

  /** Pointer select: one write of the register address. */
  function PointerSelect(reg: uint8): seq<Event>
  {
    [Sent(Address, [reg])]
  }

  /**
   * Control subcommand: `high` is written to Control() register 0x00 first,
   * `low` to 0x01 second, then 0x00 is selected again for the answer.
   */
  function ControlWrite(low: uint8, high: uint8): seq<Event>
  {
    [Sent(Address, [ControlL, high]), Sent(Address, [ControlH, low]), Sent(Address, [ControlL])]
  }

  /** Data-flash block select: the block index to 0x3F, then the window base 0x40. */
  function BlockSelect(index: uint8): seq<Event>
  {
    [Sent(Address, [DataFlashBlock, index]), Sent(Address, [BlockDataL])]
  }

  /**
   * A read of `quantity` bytes as the driver makes it: the request, then
   * the endTransmission it issues afterwards without a beginTransmission,
   * which closes an empty write to the gauge.
   */
  function Poll(quantity: nat): seq<Event>
  {
    [Requested(Address, quantity), Sent(Address, [])]
  }

  /** Whether an event points the gauge at a register. */
  predicate Selects(e: Event)
  {
    e.Sent? && e.address == Address && e.payload != []
  }

  /** The register the gauge is pointed at after the log: the first byte of the latest selecting write. */
  function SelectedRegister(log: seq<Event>): Option<uint8>
  {
    if log == [] then None
    else if Selects(log[|log| - 1]) then Some(log[|log| - 1].payload[0])
    else SelectedRegister(log[..|log| - 1])
  }

  /** Whether an event stores a byte in register reg. */
  predicate Stores(e: Event, reg: uint8)
  {
    e.Sent? && e.address == Address && |e.payload| >= 2 &&
    e.payload[0] <= reg < e.payload[0] + |e.payload| - 1
  }

  /** The byte the latest write that reached register reg left there. */
  function StoredByte(log: seq<Event>, reg: uint8): Option<uint8>
  {
    if log == [] then None
    else
      var e := log[|log| - 1];
      if Stores(e, reg) then Some(e.payload[reg - e.payload[0] + 1])
      else StoredByte(log[..|log| - 1], reg)
  }

  /** The 16-bit subcommand the gauge holds in Control(): register 0x00 is its low byte, 0x01 its high byte. */
  function ReceivedSubcommand(log: seq<Event>): Option<uint16>
  {
    match (StoredByte(log, ControlL), StoredByte(log, ControlH))
    case (Some(l), Some(h)) => Some(Assemble(l, h))
    case _ => None
  }

  /** Reads and address-only writes leave the gauge's pointer and registers as they were. */
  lemma QuietEventKeepsGauge(log: seq<Event>, e: Event)
    requires e.Requested? || e.payload == []
    ensures SelectedRegister(log + [e]) == SelectedRegister(log)
    ensures forall reg: uint8 :: StoredByte(log + [e], reg) == StoredByte(log, reg)
  {
    assert (log + [e])[..|log|] == log;
  }

  /** A read as the driver makes it leaves the gauge's pointer and registers as they were. */
  lemma PollKeepsGauge(log: seq<Event>, quantity: nat)
    ensures SelectedRegister(log + Poll(quantity)) == SelectedRegister(log)
    ensures forall reg: uint8 :: StoredByte(log + Poll(quantity), reg) == StoredByte(log, reg)
  {
    QuietEventKeepsGauge(log, Requested(Address, quantity));
    QuietEventKeepsGauge(log + [Requested(Address, quantity)], Sent(Address, []));
    assert log + Poll(quantity) == log + [Requested(Address, quantity)] + [Sent(Address, [])];
  }

  /** After a pointer select the gauge points at that register. */
  lemma PointerSelectEffect(log: seq<Event>, reg: uint8)
    ensures SelectedRegister(log + PointerSelect(reg)) == Some(reg)
  {
  }

  /**
   * After a control subcommand the gauge points at 0x00 again, holds `high`
   * in 0x00 and `low` in 0x01, and so receives the code `low * 256 + high`.
   */
  lemma ControlWriteEffect(log: seq<Event>, low: uint8, high: uint8)
    ensures SelectedRegister(log + ControlWrite(low, high)) == Some(ControlL)
    ensures StoredByte(log + ControlWrite(low, high), ControlL) == Some(high)
    ensures StoredByte(log + ControlWrite(low, high), ControlH) == Some(low)
    ensures ReceivedSubcommand(log + ControlWrite(low, high)) == Some(Assemble(high, low))
  {
    var e1, e2, e3 := Sent(Address, [ControlL, high]), Sent(Address, [ControlH, low]), Sent(Address, [ControlL]);
    var l1, l2, l3 := log + [e1], log + [e1, e2], log + ControlWrite(low, high);
    assert l3[..|l3| - 1] == l2 && l2[..|l2| - 1] == l1 && l1[..|l1| - 1] == log;
    assert StoredByte(l1, ControlL) == Some(high);
    assert StoredByte(l2, ControlH) == Some(low);
    assert StoredByte(l2, ControlL) == Some(high);
  }

  /**
   * The (low, high) payload pair of each subcommand makes the gauge receive
   * that subcommand's code; writing the pair in the other order would not
   * (for the three subcommands whose bytes differ).
   */
  lemma SubcommandDelivered(log: seq<Event>, s: Subcommand)
    ensures ReceivedSubcommand(log + ControlWrite(s.Low(), s.High())) == Some(s.Code())
    ensures s != ControlStatus ==>
      ReceivedSubcommand(log + ControlWrite(s.High(), s.Low())) != Some(s.Code())
  {
    ControlWriteEffect(log, s.Low(), s.High());
    ControlWriteEffect(log, s.High(), s.Low());
  }

  /** After a block select the gauge has the block index in 0x3F and points at the window base 0x40. */
  lemma BlockSelectEffect(log: seq<Event>, index: uint8)
    ensures SelectedRegister(log + BlockSelect(index)) == Some(BlockDataL)
    ensures StoredByte(log + BlockSelect(index), DataFlashBlock) == Some(index)
  {
    var e1, e2 := Sent(Address, [DataFlashBlock, index]), Sent(Address, [BlockDataL]);
    var l1, l2 := log + [e1], log + BlockSelect(index);
    assert l2[..|l2| - 1] == l1 && l1[..|l1| - 1] == log;
  }

  /**
   * What requestPairRegisters returns for the bytes q that arrived: 0 when
   * none did; otherwise the low byte is q[0] and, when a second byte
   * arrived, the high byte is q[1]. When exactly one arrived the high byte
   * is whatever the bus gives for a read of an empty queue.
   */
  ghost predicate IsPairRead(q: seq<uint8>, w: uint16)
  {
    if q == [] then w == 0
    else LowByte(w) == q[0] && (|q| >= 2 ==> HighByte(w) == q[1])
  }

  /** Bit k of the word read from the bytes q, as far as q determines it. */
  ghost predicate IsBitRead(q: seq<uint8>, k: nat, b: bool)
    requires k < 16
  {
    if q == [] then !b
    else if k < 8 then b == TestBit(q[0], k)
    else |q| >= 2 ==> b == TestBit(q[1], k - 8)
  }

  /** Unless exactly one byte arrived, the bytes determine the word. */
  lemma PairReadDetermined(q: seq<uint8>, v: uint16, w: uint16)
    requires |q| != 1 && IsPairRead(q, v) && IsPairRead(q, w)
    ensures v == w
    ensures |q| >= 2 ==> w == Assemble(q[0], q[1])
  {
    AssembleBytes(v);
    AssembleBytes(w);
  }

  /** The low byte of the word read is the first byte that arrived, or 0. */
  lemma PairReadLowByte(q: seq<uint8>, w: uint16)
    requires IsPairRead(q, w)
    ensures LowByte(w) == if q == [] then 0 else q[0]
  {
  }

  /** A bit taken from the word read is the matching bit of the byte it came in. */
  lemma PairReadBit(q: seq<uint8>, w: uint16, k: nat)
    requires k < 16 && IsPairRead(q, w)
    ensures IsBitRead(q, k, TestBit(w, k))
  {
    if q == [] {
      ZeroBits(16);
    } else {
      AssembleBytes(w);
      AssembleTestBit(LowByte(w), HighByte(w), k);
    }
  }

  lemma {:induction false} ZeroBits(n: nat)
    ensures forall i :: 0 <= i < n ==> !BitsOf(0, n)[i]
  {
    if n > 0 {
      ZeroBits(n - 1);
      assert BitsOf(0, n) == [false] + BitsOf(0, n - 1);
    }
  }

  /** The sixteen control-status flags together determine the CONTROL_STATUS word. */
  lemma ControlStatusFlagsDetermineWord(v: uint16, w: uint16)
    requires forall f: ControlStatusFlag :: TestBit(v, f.Position()) == TestBit(w, f.Position())
    ensures v == w
  {
    forall k | 0 <= k < 16
      ensures BitsOf(v, 16)[k] == BitsOf(w, 16)[k]
    {
      var f := ControlStatusFlagAt(k);
      assert TestBit(v, f.Position()) == TestBit(w, f.Position());
    }
    Pow2Widths();
    BitsOfInjective(v, w, 16);
  }

  /** The sixteen Flags() positions, reserved ones included, together determine the Flags() word. */
  lemma FlagsBitsDetermineWord(v: uint16, w: uint16)
    requires forall f: FlagsBit :: TestBit(v, f.Position()) == TestBit(w, f.Position())
    ensures v == w
  {
    forall k | 0 <= k < 16
      ensures BitsOf(v, 16)[k] == BitsOf(w, 16)[k]
    {
      var f := FlagsBitAt(k);
      assert TestBit(v, f.Position()) == TestBit(w, f.Position());
    }
    Pow2Widths();
    BitsOfInjective(v, w, 16);
  }

  /** The register a driver read was answered from: where the gauge pointed when the request before the closing write was made. */
  function PolledRegister(log: seq<Event>): Option<uint8>
    requires |log| >= 2
  {
    SelectedRegister(log[..|log| - 2])
  }

  /** A read made after the writes `sent` is answered from the register those writes left selected. */
  lemma PolledAfter(log: seq<Event>, sent: seq<Event>, quantity: nat)
    ensures PolledRegister(log + sent + Poll(quantity)) == SelectedRegister(log + sent)
  {
    var l := log + sent + Poll(quantity);
    assert l[..|l| - 2] == log + sent;
  }

  /**
   * What pullBlockData leaves in a buffer `before` when the bytes q arrive
   * for its request: nothing changes when none arrived; otherwise the first
   * |q| bytes are q and bytes from BlockLength on are untouched. The bytes
   * in between are those the bus gives for reads of an empty queue.
   */
  ghost predicate IsBlockRead(q: seq<uint8>, before: seq<uint8>, after: seq<uint8>)
    requires |q| <= BlockLength <= |before|
  {
    |after| == |before| &&
    if q == [] then after == before
    else after[..|q|] == q && after[BlockLength..] == before[BlockLength..]
  }

  /** A complete answer fills the block buffer with exactly the bytes that arrived, in order. */
  lemma CompleteBlockRead(q: seq<uint8>, before: seq<uint8>, after: seq<uint8>)
    requires |q| == BlockLength <= |before| && IsBlockRead(q, before, after)
    ensures after == q + before[BlockLength..]
  {
    assert after == after[..BlockLength] + after[BlockLength..];
  }

  /**
   * A read made right after a subcommand is answered from register 0x00,
   * with the gauge holding that subcommand's code before and after the read.
   */
  lemma SubcommandPolled(log: seq<Event>, s: Subcommand, quantity: nat)
    ensures PolledRegister(log + ControlWrite(s.Low(), s.High()) + Poll(quantity)) == Some(ControlL)
    ensures ReceivedSubcommand(log + ControlWrite(s.Low(), s.High()) + Poll(quantity)) == Some(s.Code())
  {
    var selected := log + ControlWrite(s.Low(), s.High());
    SubcommandDelivered(log, s);
    ControlWriteEffect(log, s.Low(), s.High());
    PolledAfter(log, ControlWrite(s.Low(), s.High()), quantity);
    PollKeepsGauge(selected, quantity);
  }
}

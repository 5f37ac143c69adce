/**
 * The register map of the bq2754x fuel gauge as the driver's header defines
 * it: the bus address, the standard and extended command registers, the
 * Control() subcommands, the data-flash block window and the bit positions
 * of the CONTROL_STATUS and Flags() words.
 */
module Registers {
  import opened Bits

  /** 7-bit I2C address of the gauge. */
  const Address: uint8 := 0x55

  /** The Control() register pair. */
  const ControlL: uint8 := 0x00
  const ControlH: uint8 := 0x01

  /** Standard commands: each names the low register of a low/high pair. */
  const TemperaturePair: uint8 := 0x06
  const VoltagePair: uint8 := 0x08
  const FlagsPair: uint8 := 0x0A
  const RemainingCapacityPair: uint8 := 0x10
  const FullChargeCapacityPair: uint8 := 0x12
  const AverageCurrentPair: uint8 := 0x14
  const TimeToEmptyPair: uint8 := 0x16
  const AveragePowerPair: uint8 := 0x24
  const CycleCountPair: uint8 := 0x2A
  const StateOfChargePair: uint8 := 0x2C
  const DesignCapacityPair: uint8 := 0x3C

  /** Every word register the driver reads. */
  const WordRegisters: seq<uint8> := [
    TemperaturePair, VoltagePair, FlagsPair, RemainingCapacityPair,
    FullChargeCapacityPair, AverageCurrentPair, TimeToEmptyPair,
    AveragePowerPair, CycleCountPair, StateOfChargePair, DesignCapacityPair
  ]

  /** Extended commands: data-flash block selection and the block window. */
  const DataFlashBlock: uint8 := 0x3F
  const ManufactureBlockA: uint8 := 0x01
  const ManufactureBlockB: uint8 := 0x02
  const ManufactureBlockC: uint8 := 0x03
  const BlockDataL: uint8 := 0x40
  const BlockDataH: uint8 := 0x5F
  const BlockDataChecksum: uint8 := 0x60

  /** Length of the driver's block buffer, computed as the header computes it. */
  const BlockLength: nat := BlockDataH - BlockDataL

  /** The Control() subcommands the driver issues, each a (low, high) payload pair. */
  datatype Subcommand = ControlStatus | DeviceType | FirmwareVersion | HardwareVersion
  {
    function Low(): uint8
    {
      0x00
    }

    function High(): uint8
    {
      match this
      case ControlStatus => 0x00
      case DeviceType => 0x01
      case FirmwareVersion => 0x02
      case HardwareVersion => 0x03
    }

    /** The 16-bit subcommand code, as the register comments number them. */
    function Code(): uint16
    {
      match this
      case ControlStatus => 0x0000
      case DeviceType => 0x0001
      case FirmwareVersion => 0x0002
      case HardwareVersion => 0x0003
    }
  }

  /** Bits of the CONTROL_STATUS word, in declaration order. */
  datatype ControlStatusFlag =
    | Qen | Vok | RupDis | Ldmd | Sleep | FullSleep | Hibernate | Shutdwn
    | HostIe | QmaxUpdate | Bca | Cca | CalMode | Ss | Fas | Se
  {
    /** The enumerator's value: its position in the declaration. */
    function Position(): (k: nat)
      ensures k < 16
    {
      match this
      case Qen => 0
      case Vok => 1
      case RupDis => 2
      case Ldmd => 3
      case Sleep => 4
      case FullSleep => 5
      case Hibernate => 6
      case Shutdwn => 7
      case HostIe => 8
      case QmaxUpdate => 9
      case Bca => 10
      case Cca => 11
      case CalMode => 12
      case Ss => 13
      case Fas => 14
      case Se => 15
    }
  }

  /** The flag declared at position k: every bit of the word has one. */
  function ControlStatusFlagAt(k: nat): (f: ControlStatusFlag)
    requires k < 16
    ensures f.Position() == k
  {
    [Qen, Vok, RupDis, Ldmd, Sleep, FullSleep, Hibernate, Shutdwn,
     HostIe, QmaxUpdate, Bca, Cca, CalMode, Ss, Fas, Se][k]
  }

  /** No two control-status flags share a bit. */
  lemma ControlStatusPositionsDistinct(f: ControlStatusFlag, g: ControlStatusFlag)
    ensures f.Position() == g.Position() <==> f == g
  {
    assert ControlStatusFlagAt(f.Position()) == f;
    assert ControlStatusFlagAt(g.Position()) == g;
  }

  /** Bits of the Flags() word, in declaration order, reserved slots included. */
  datatype FlagsBit =
    | Dsg | Socf | Soc1 | Chg | Imax | Rsvd0 | Rsvd1 | ChgSus
    | Rsvd2 | Fc | Rsvd3 | ChgInh | BatLow | BatHi | Rsvd4 | Rsvd5
  {
    /** The enumerator's value: its position in the declaration. */
    function Position(): (k: nat)
      ensures k < 16
    {
      match this
      case Dsg => 0
      case Socf => 1
      case Soc1 => 2
      case Chg => 3
      case Imax => 4
      case Rsvd0 => 5
      case Rsvd1 => 6
      case ChgSus => 7
      case Rsvd2 => 8
      case Fc => 9
      case Rsvd3 => 10
      case ChgInh => 11
      case BatLow => 12
      case BatHi => 13
      case Rsvd4 => 14
      case Rsvd5 => 15
    }

    predicate Reserved()
    {
      this in {Rsvd0, Rsvd1, Rsvd2, Rsvd3, Rsvd4, Rsvd5}
    }
  }

  /** The Flags() bit declared at position k. */
  function FlagsBitAt(k: nat): (f: FlagsBit)
    requires k < 16
    ensures f.Position() == k
  {
    [Dsg, Socf, Soc1, Chg, Imax, Rsvd0, Rsvd1, ChgSus,
     Rsvd2, Fc, Rsvd3, ChgInh, BatLow, BatHi, Rsvd4, Rsvd5][k]
  }

  /** No two Flags() bits share a position. */
  lemma FlagsPositionsDistinct(f: FlagsBit, g: FlagsBit)
    ensures f.Position() == g.Position() <==> f == g
  {
    assert FlagsBitAt(f.Position()) == f;
    assert FlagsBitAt(g.Position()) == g;
  }

  /** The reserved slots are exactly positions 5, 6, 8, 10, 14 and 15. */
  lemma FlagsReservedPositions(f: FlagsBit)
    ensures f.Reserved() <==> f.Position() in {5, 6, 8, 10, 14, 15}
  {
  }

  /** The four subcommands carry four different payload pairs and codes. */
  lemma SubcommandsDistinct(s: Subcommand, t: Subcommand)
    ensures (s.Low(), s.High()) == (t.Low(), t.High()) <==> s == t
    ensures s.Code() == t.Code() <==> s == t
  {
  }

  /** Every word register is even and has its high partner at the next address. */
  lemma WordRegistersArePairs()
    ensures forall i :: 0 <= i < |WordRegisters| ==>
      WordRegisters[i] % 2 == 0 && WordRegisters[i] <= 0xFE
  {
  }

  /**
   * The block buffer holds 0x5F - 0x40 = 31 bytes, one less than the 32
   * addresses 0x40..0x5F of the window it is filled from.
   */
  lemma BlockBufferOneShort()
    ensures BlockLength == 31
    ensures BlockDataH - BlockDataL + 1 == 32 == BlockLength + 1
  {
  }

  /** Address and command layout: a 7-bit address, three distinct block indices,
      the block command just below the window and the checksum just above it. */
  lemma CommandLayout()
    ensures Address < 0x80
    ensures |{ManufactureBlockA, ManufactureBlockB, ManufactureBlockC}| == 3
    ensures DataFlashBlock + 1 == BlockDataL
    ensures BlockDataH + 1 == BlockDataChecksum
    ensures ControlH == ControlL + 1
  {
  }
}

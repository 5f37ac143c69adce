/**
 * The driver: a bq2754x gauge reached over a two-wire bus, and the
 * 31-byte buffer the manufacturer-info blocks are read into.
 *
 * Every accessor selects what it reads (a register pointer, a Control()
 * subcommand or a data-flash block) and then reads it; its contract says
 * which events it adds to the bus log and what it makes of the bytes that
 * arrive for its read request.
 */
module Driver {
  import opened Bits
  import opened Registers
  import opened TwoWire
  import opened Protocol
  import opened Wrappers

  class I2CBatt {
    /** The bus the gauge sits on, supplied by the caller. */
    const wire: Wire
    /** The block buffer, BlockLength bytes. */
    const blockData: array<uint8>

    ghost predicate Valid()
    {
      blockData.Length == BlockLength
    }

    constructor (wire: Wire)
      ensures Valid() && this.wire == wire && fresh(blockData)
    {
      this.wire := wire;
      blockData := new uint8[BlockLength];
    }

    /**
     * Since the old state the bus saw the writes `sent`, then a read of
     * `quantity` bytes as the driver makes it; the write buffer is empty and
     * addressed to the gauge, and nothing received is left unread.
     */
    twostate predicate Polled(sent: seq<Event>, quantity: nat)
      reads wire
    {
      wire.log == old(wire.log) + sent + Poll(quantity) &&
      wire.txAddress == Address && wire.txBuffer == [] && wire.rx == []
    }

    /** The bytes that arrived for the read request just before the closing write. */
    function LastAnswer(quantity: nat): (q: seq<uint8>)
      requires |wire.log| >= 2
      reads wire
      ensures |q| <= quantity
    {
      wire.ReplyAt(|wire.log| - 2, quantity)
    }

    /** Reads BlockLength bytes into str, in the order they arrive, when any arrive at all. */
    method PullBlockData(str: array<uint8>)
      requires str.Length >= BlockLength
      modifies wire, str
      ensures IsBlockRead(old(wire.NextReply(BlockLength)), old(str[..]), str[..])
      ensures wire.log == old(wire.log) + [Requested(Address, BlockLength), Sent(old(wire.txAddress), old(wire.txBuffer))]
      ensures wire.txAddress == old(wire.txAddress) && wire.txBuffer == [] && wire.rx == []
    {
      ghost var q := wire.NextReply(BlockLength);
      wire.RequestFrom(Address, BlockLength);
      var available := wire.Available();
      if available >= 1 {
        for i := 0 to BlockLength
          invariant wire.rx == if i <= |q| then q[i..] else []
          invariant forall j :: 0 <= j < i && j < |q| ==> str[j] == q[j]
          invariant forall j :: i <= j < str.Length ==> str[j] == old(str[j])
          invariant wire.log == old(wire.log) + [Requested(Address, BlockLength)]
          invariant wire.txAddress == old(wire.txAddress) && wire.txBuffer == old(wire.txBuffer)
        {
          str[i] := wire.Read();
        }
        assert str[..|q|] == q;
      }
      var status := wire.EndTransmission();
    }

    /** Points the gauge at register reg. */
    method SendFirstRegister(reg: uint8)
      modifies wire
      ensures wire.log == old(wire.log) + PointerSelect(reg)
      ensures SelectedRegister(wire.log) == Some(reg)
      ensures wire.txAddress == Address && wire.txBuffer == [] && wire.rx == old(wire.rx)
    {
      wire.BeginTransmission(Address);
      wire.Write(reg);
      assert wire.txBuffer == [reg];
      var status := wire.EndTransmission();
      PointerSelectEffect(old(wire.log), reg);
    }

    /** Selects data-flash block `command` and points the gauge back at the window base, whatever the block. */
    method SendCommandManufactureBlock(command: uint8)
      modifies wire
      ensures wire.log == old(wire.log) + BlockSelect(command)
      ensures SelectedRegister(wire.log) == Some(BlockDataL)
      ensures StoredByte(wire.log, DataFlashBlock) == Some(command)
      ensures wire.txAddress == Address && wire.txBuffer == [] && wire.rx == old(wire.rx)
    {
      wire.BeginTransmission(Address);
      wire.Write(DataFlashBlock);
      wire.Write(command);
      assert wire.txBuffer == [DataFlashBlock, command];
      var status := wire.EndTransmission();

      wire.BeginTransmission(Address);
      wire.Write(BlockDataL);
      assert wire.txBuffer == [BlockDataL];
      status := wire.EndTransmission();
      BlockSelectEffect(old(wire.log), command);
    }

    /** Reads one byte: the byte that arrives, or 0 when none does. */
    method RequestSingleRegister() returns (b: uint8)
      modifies wire
      ensures b == if old(wire.NextReply(1)) == [] then 0 else old(wire.NextReply(1))[0]
      ensures wire.log == old(wire.log) + [Requested(Address, 1), Sent(old(wire.txAddress), old(wire.txBuffer))]
      ensures wire.txAddress == old(wire.txAddress) && wire.txBuffer == [] && wire.rx == []
    {
      b := 0;
      wire.RequestFrom(Address, 1);
      var available := wire.Available();
      if available >= 1 {
        b := wire.Read();
      }
      var status := wire.EndTransmission();
    }

    /** Reads a low/high byte pair, low byte first, and assembles the word; 0 when nothing arrives. */
    method RequestPairRegisters() returns (w: uint16)
      modifies wire
      ensures IsPairRead(old(wire.NextReply(2)), w)
      ensures wire.log == old(wire.log) + [Requested(Address, 2), Sent(old(wire.txAddress), old(wire.txBuffer))]
      ensures wire.txAddress == old(wire.txAddress) && wire.txBuffer == [] && wire.rx == []
    {
      var low: uint8, high: uint8 := 0, 0;
      wire.RequestFrom(Address, 2);
      var available := wire.Available();
      if available >= 1 {
        low := wire.Read();
        high := wire.Read();
      }
      var status := wire.EndTransmission();
      w := Assemble(low, high);
    }

    /**
     * Issues a Control() subcommand: `high` to register 0x00, `low` to 0x01,
     * then 0x00 selected again, so that the next read returns its answer
     * (what the gauge makes of these writes is ControlWriteEffect).
     */
    method WriteControlAddresses(lowPayload: uint8, highPayload: uint8)
      modifies wire
      ensures wire.log == old(wire.log) + ControlWrite(lowPayload, highPayload)
      ensures wire.txAddress == Address && wire.txBuffer == [] && wire.rx == old(wire.rx)
    {
      wire.BeginTransmission(Address);
      wire.Write(ControlL);
      wire.Write(highPayload);
      assert wire.txBuffer == [ControlL, highPayload];
      var status := wire.EndTransmission();

      wire.BeginTransmission(Address);
      wire.Write(ControlH);
      wire.Write(lowPayload);
      assert wire.txBuffer == [ControlH, lowPayload];
      status := wire.EndTransmission();

      wire.BeginTransmission(Address);
      wire.Write(ControlL);
      assert wire.txBuffer == [ControlL];
      status := wire.EndTransmission();
    }

    /** Whether the gauge acknowledges an address-only write; the gauge's pointer and registers stay as they were. */
    method IsConnected() returns (connected: bool)
      modifies wire
      ensures connected <==> old(wire.NextStatus()) == 0
      ensures wire.log == old(wire.log) + [Sent(Address, [])]
      ensures SelectedRegister(wire.log) == SelectedRegister(old(wire.log))
      ensures forall reg: uint8 :: StoredByte(wire.log, reg) == StoredByte(old(wire.log), reg)
      ensures wire.txAddress == Address && wire.txBuffer == [] && wire.rx == old(wire.rx)
    {
      wire.BeginTransmission(Address);
      var status := wire.EndTransmission();
      connected := status == 0;
      QuietEventKeepsGauge(old(wire.log), Sent(Address, []));
    }

    /** The CONTROL_STATUS word: the control-status subcommand, then a word read of its answer. */
    method GetControlStatus() returns (w: uint16)
      modifies wire
      ensures Polled(ControlWrite(ControlStatus.Low(), ControlStatus.High()), 2)
      ensures PolledRegister(wire.log) == Some(ControlL)
      ensures ReceivedSubcommand(wire.log) == Some(ControlStatus.Code())
      ensures IsPairRead(LastAnswer(2), w)
    {
      WriteControlAddresses(ControlStatus.Low(), ControlStatus.High());
      w := RequestPairRegisters();
      SubcommandPolled(old(wire.log), ControlStatus, 2);
    }

    /** CONTROL_STATUS bit Se: the SE pin is active. */
    method GetFlagSEPinIsActive() returns (b: bool)
      modifies wire
      ensures Polled(ControlWrite(ControlStatus.Low(), ControlStatus.High()), 2)
      ensures IsBitRead(LastAnswer(2), Se.Position(), b)
    {
      var w := GetControlStatus();
      b := TestBit(w, Se.Position());
      PairReadBit(LastAnswer(2), w, Se.Position());
    }

    /** CONTROL_STATUS bit Fas: the gauge is in FULL ACCESS SEALED state. */
    method GetFlagIsFullAccessSealedMode() returns (b: bool)
      modifies wire
      ensures Polled(ControlWrite(ControlStatus.Low(), ControlStatus.High()), 2)
      ensures IsBitRead(LastAnswer(2), Fas.Position(), b)
    {
      var w := GetControlStatus();
      b := TestBit(w, Fas.Position());
      PairReadBit(LastAnswer(2), w, Fas.Position());
    }

    /** CONTROL_STATUS bit Ss: the gauge is in SEALED state. */
    method GetFlagIsSealedMode() returns (b: bool)
      modifies wire
      ensures Polled(ControlWrite(ControlStatus.Low(), ControlStatus.High()), 2)
      ensures IsBitRead(LastAnswer(2), Ss.Position(), b)
    {
      var w := GetControlStatus();
      b := TestBit(w, Ss.Position());
      PairReadBit(LastAnswer(2), w, Ss.Position());
    }

    /** CONTROL_STATUS bit CalMode: the calibration function is active. */
    method GetFlagCalibrationFunctionIsActive() returns (b: bool)
      modifies wire
      ensures Polled(ControlWrite(ControlStatus.Low(), ControlStatus.High()), 2)
      ensures IsBitRead(LastAnswer(2), CalMode.Position(), b)
    {
      var w := GetControlStatus();
      b := TestBit(w, CalMode.Position());
      PairReadBit(LastAnswer(2), w, CalMode.Position());
    }

    /** CONTROL_STATUS bit Cca: the coulomb counter calibration routine is active. */
    method GetFlagCoulombCounterCalibrationRoutineIsActive() returns (b: bool)
      modifies wire
      ensures Polled(ControlWrite(ControlStatus.Low(), ControlStatus.High()), 2)
      ensures IsBitRead(LastAnswer(2), Cca.Position(), b)
    {
      var w := GetControlStatus();
      b := TestBit(w, Cca.Position());
      PairReadBit(LastAnswer(2), w, Cca.Position());
    }

    /** CONTROL_STATUS bit Bca: the board calibration routine is active. */
    method GetFlagBoardCalibrationRoutineIsActive() returns (b: bool)
      modifies wire
      ensures Polled(ControlWrite(ControlStatus.Low(), ControlStatus.High()), 2)
      ensures IsBitRead(LastAnswer(2), Bca.Position(), b)
    {
      var w := GetControlStatus();
      b := TestBit(w, Bca.Position());
      PairReadBit(LastAnswer(2), w, Bca.Position());
    }

    /** CONTROL_STATUS bit QmaxUpdate: QMAX has been updated (the bit toggles). */
    method GetFlagQMAXUpdate() returns (b: bool)
      modifies wire
      ensures Polled(ControlWrite(ControlStatus.Low(), ControlStatus.High()), 2)
      ensures IsBitRead(LastAnswer(2), QmaxUpdate.Position(), b)
    {
      var w := GetControlStatus();
      b := TestBit(w, QmaxUpdate.Position());
      PairReadBit(LastAnswer(2), w, QmaxUpdate.Position());
    }

    /** CONTROL_STATUS bit HostIe: the HDQ interrupt function is active. */
    method GetFlagHDQInterruptFunctionIsActive() returns (b: bool)
      modifies wire
      ensures Polled(ControlWrite(ControlStatus.Low(), ControlStatus.High()), 2)
      ensures IsBitRead(LastAnswer(2), HostIe.Position(), b)
    {
      var w := GetControlStatus();
      b := TestBit(w, HostIe.Position());
      PairReadBit(LastAnswer(2), w, HostIe.Position());
    }

    /** CONTROL_STATUS bit Shutdwn: SET_SHUTDOWN has been sent. */
    method GetFlagShutdownCommandIsSent() returns (b: bool)
      modifies wire
      ensures Polled(ControlWrite(ControlStatus.Low(), ControlStatus.High()), 2)
      ensures IsBitRead(LastAnswer(2), Shutdwn.Position(), b)
    {
      var w := GetControlStatus();
      b := TestBit(w, Shutdwn.Position());
      PairReadBit(LastAnswer(2), w, Shutdwn.Position());
    }

    /** CONTROL_STATUS bit Hibernate: hibernation from SLEEP has been requested. */
    method GetFlagRequestHibernateFromSleepMode() returns (b: bool)
      modifies wire
      ensures Polled(ControlWrite(ControlStatus.Low(), ControlStatus.High()), 2)
      ensures IsBitRead(LastAnswer(2), Hibernate.Position(), b)
    {
      var w := GetControlStatus();
      b := TestBit(w, Hibernate.Position());
      PairReadBit(LastAnswer(2), w, Hibernate.Position());
    }

    /** CONTROL_STATUS bit FullSleep: the gauge is in FULLSLEEP mode. */
    method GetFlagIsFullSleepMode() returns (b: bool)
      modifies wire
      ensures Polled(ControlWrite(ControlStatus.Low(), ControlStatus.High()), 2)
      ensures IsBitRead(LastAnswer(2), FullSleep.Position(), b)
    {
      var w := GetControlStatus();
      b := TestBit(w, FullSleep.Position());
      PairReadBit(LastAnswer(2), w, FullSleep.Position());
    }

    /** CONTROL_STATUS bit Sleep: the gauge is in SLEEP mode. */
    method GetFlagIsSleepMode() returns (b: bool)
      modifies wire
      ensures Polled(ControlWrite(ControlStatus.Low(), ControlStatus.High()), 2)
      ensures IsBitRead(LastAnswer(2), Sleep.Position(), b)
    {
      var w := GetControlStatus();
      b := TestBit(w, Sleep.Position());
      PairReadBit(LastAnswer(2), w, Sleep.Position());
    }

    /** CONTROL_STATUS bit Ldmd: Impedance Track uses constant-power mode. */
    method GetFlagImpedanceTrackAlgorithm() returns (b: bool)
      modifies wire
      ensures Polled(ControlWrite(ControlStatus.Low(), ControlStatus.High()), 2)
      ensures IsBitRead(LastAnswer(2), Ldmd.Position(), b)
    {
      var w := GetControlStatus();
      b := TestBit(w, Ldmd.Position());
      PairReadBit(LastAnswer(2), w, Ldmd.Position());
    }

    /** CONTROL_STATUS bit RupDis: Ra table updates are disabled. */
    method GetFlagRaTableUpdatesDisabled() returns (b: bool)
      modifies wire
      ensures Polled(ControlWrite(ControlStatus.Low(), ControlStatus.High()), 2)
      ensures IsBitRead(LastAnswer(2), RupDis.Position(), b)
    {
      var w := GetControlStatus();
      b := TestBit(w, RupDis.Position());
      PairReadBit(LastAnswer(2), w, RupDis.Position());
    }

    /** CONTROL_STATUS bit Vok: the cell voltages are OK. */
    method GetFlagCellVoltagesOK() returns (b: bool)
      modifies wire
      ensures Polled(ControlWrite(ControlStatus.Low(), ControlStatus.High()), 2)
      ensures IsBitRead(LastAnswer(2), Vok.Position(), b)
    {
      var w := GetControlStatus();
      b := TestBit(w, Vok.Position());
      PairReadBit(LastAnswer(2), w, Vok.Position());
    }

    /** CONTROL_STATUS bit Qen: Qmax updates are enabled. */
    method GetFlagQmaxUpdatesEnabled() returns (b: bool)
      modifies wire
      ensures Polled(ControlWrite(ControlStatus.Low(), ControlStatus.High()), 2)
      ensures IsBitRead(LastAnswer(2), Qen.Position(), b)
    {
      var w := GetControlStatus();
      b := TestBit(w, Qen.Position());
      PairReadBit(LastAnswer(2), w, Qen.Position());
    }

    /** The device type: the device-type subcommand, then a word read of its answer. */
    method GetDeviceType() returns (w: uint16)
      modifies wire
      ensures Polled(ControlWrite(DeviceType.Low(), DeviceType.High()), 2)
      ensures PolledRegister(wire.log) == Some(ControlL)
      ensures ReceivedSubcommand(wire.log) == Some(DeviceType.Code())
      ensures IsPairRead(LastAnswer(2), w)
    {
      WriteControlAddresses(DeviceType.Low(), DeviceType.High());
      w := RequestPairRegisters();
      SubcommandPolled(old(wire.log), DeviceType, 2);
    }

    /** Cell-pack voltage in millivolts: a word read of register pair 0x08. */
    method GetVoltageMilli() returns (w: uint16)
      modifies wire
      ensures Polled(PointerSelect(VoltagePair), 2)
      ensures PolledRegister(wire.log) == Some(VoltagePair)
      ensures IsPairRead(LastAnswer(2), w)
    {
      SendFirstRegister(VoltagePair);
      w := RequestPairRegisters();
      PolledAfter(old(wire.log), PointerSelect(VoltagePair), 2);
    }

    /** The Flags() word: a word read of register pair 0x0A. */
    method GetFlags() returns (w: uint16)
      modifies wire
      ensures Polled(PointerSelect(FlagsPair), 2)
      ensures PolledRegister(wire.log) == Some(FlagsPair)
      ensures IsPairRead(LastAnswer(2), w)
    {
      SendFirstRegister(FlagsPair);
      w := RequestPairRegisters();
      PolledAfter(old(wire.log), PointerSelect(FlagsPair), 2);
    }

    /** Flags() bit BatHi: battery high. */
    method GetFlagBatteryHighIndicating() returns (b: bool)
      modifies wire
      ensures Polled(PointerSelect(FlagsPair), 2)
      ensures IsBitRead(LastAnswer(2), BatHi.Position(), b)
    {
      var w := GetFlags();
      b := TestBit(w, BatHi.Position());
      PairReadBit(LastAnswer(2), w, BatHi.Position());
    }

    /** Flags() bit BatLow: battery low. */
    method GetFlagBatteryLowIndicating() returns (b: bool)
      modifies wire
      ensures Polled(PointerSelect(FlagsPair), 2)
      ensures IsBitRead(LastAnswer(2), BatLow.Position(), b)
    {
      var w := GetFlags();
      b := TestBit(w, BatLow.Position());
      PairReadBit(LastAnswer(2), w, BatLow.Position());
    }

    /** Flags() bit ChgInh: charge inhibited. */
    method GetFlagChargeInhibitindicates() returns (b: bool)
      modifies wire
      ensures Polled(PointerSelect(FlagsPair), 2)
      ensures IsBitRead(LastAnswer(2), ChgInh.Position(), b)
    {
      var w := GetFlags();
      b := TestBit(w, ChgInh.Position());
      PairReadBit(LastAnswer(2), w, ChgInh.Position());
    }

    /** Flags() bit Fc: full charge detected. */
    method GetFlagFullChargedIsDetected() returns (b: bool)
      modifies wire
      ensures Polled(PointerSelect(FlagsPair), 2)
      ensures IsBitRead(LastAnswer(2), Fc.Position(), b)
    {
      var w := GetFlags();
      b := TestBit(w, Fc.Position());
      PairReadBit(LastAnswer(2), w, Fc.Position());
    }

    /** Flags() bit ChgSus: charge suspended. */
    method GetFlagChargeSuspend() returns (b: bool)
      modifies wire
      ensures Polled(PointerSelect(FlagsPair), 2)
      ensures IsBitRead(LastAnswer(2), ChgSus.Position(), b)
    {
      var w := GetFlags();
      b := TestBit(w, ChgSus.Position());
      PairReadBit(LastAnswer(2), w, ChgSus.Position());
    }

    /** Flags() bit Imax: Imax computed. */
    method GetFlagIndicatesComputedImax() returns (b: bool)
      modifies wire
      ensures Polled(PointerSelect(FlagsPair), 2)
      ensures IsBitRead(LastAnswer(2), Imax.Position(), b)
    {
      var w := GetFlags();
      b := TestBit(w, Imax.Position());
      PairReadBit(LastAnswer(2), w, Imax.Position());
    }

    /** Flags() bit Chg: fast charging allowed. */
    method GetFlagChargingAllowed() returns (b: bool)
      modifies wire
      ensures Polled(PointerSelect(FlagsPair), 2)
      ensures IsBitRead(LastAnswer(2), Chg.Position(), b)
    {
      var w := GetFlags();
      b := TestBit(w, Chg.Position());
      PairReadBit(LastAnswer(2), w, Chg.Position());
    }

    /** Flags() bit Soc1: state-of-charge threshold 1 reached. */
    method GetFlagStateOfChargeThreshold1() returns (b: bool)
      modifies wire
      ensures Polled(PointerSelect(FlagsPair), 2)
      ensures IsBitRead(LastAnswer(2), Soc1.Position(), b)
    {
      var w := GetFlags();
      b := TestBit(w, Soc1.Position());
      PairReadBit(LastAnswer(2), w, Soc1.Position());
    }

    /** Flags() bit Socf: final state-of-charge threshold reached. */
    method GetFlagStateOfChargeThresholdFinal() returns (b: bool)
      modifies wire
      ensures Polled(PointerSelect(FlagsPair), 2)
      ensures IsBitRead(LastAnswer(2), Socf.Position(), b)
    {
      var w := GetFlags();
      b := TestBit(w, Socf.Position());
      PairReadBit(LastAnswer(2), w, Socf.Position());
    }

    /** Flags() bit Dsg: discharging detected. */
    method GetFlagDischargingDetected() returns (b: bool)
      modifies wire
      ensures Polled(PointerSelect(FlagsPair), 2)
      ensures IsBitRead(LastAnswer(2), Dsg.Position(), b)
    {
      var w := GetFlags();
      b := TestBit(w, Dsg.Position());
      PairReadBit(LastAnswer(2), w, Dsg.Position());
    }

    /** Remaining capacity in mAh: a word read of register pair 0x10. */
    method GetRemainingCapacity() returns (w: uint16)
      modifies wire
      ensures Polled(PointerSelect(RemainingCapacityPair), 2)
      ensures PolledRegister(wire.log) == Some(RemainingCapacityPair)
      ensures IsPairRead(LastAnswer(2), w)
    {
      SendFirstRegister(RemainingCapacityPair);
      w := RequestPairRegisters();
      PolledAfter(old(wire.log), PointerSelect(RemainingCapacityPair), 2);
    }

    /** Full-charge capacity in mAh: a word read of register pair 0x12. */
    method GetFullChargeCapacity() returns (w: uint16)
      modifies wire
      ensures Polled(PointerSelect(FullChargeCapacityPair), 2)
      ensures PolledRegister(wire.log) == Some(FullChargeCapacityPair)
      ensures IsPairRead(LastAnswer(2), w)
    {
      SendFirstRegister(FullChargeCapacityPair);
      w := RequestPairRegisters();
      PolledAfter(old(wire.log), PointerSelect(FullChargeCapacityPair), 2);
    }

    /** Average current in mA, negative while discharging: the word read of register pair 0x14 as a short. */
    method GetAverageCurrentMilli() returns (current: int16)
      modifies wire
      ensures Polled(PointerSelect(AverageCurrentPair), 2)
      ensures PolledRegister(wire.log) == Some(AverageCurrentPair)
      ensures IsPairRead(LastAnswer(2), FromInt16(current))
    {
      SendFirstRegister(AverageCurrentPair);
      var w := RequestPairRegisters();
      current := ToInt16(w);
      PolledAfter(old(wire.log), PointerSelect(AverageCurrentPair), 2);
    }

    /** Time to empty in minutes: a word read of register pair 0x16. */
    method GetTimeToEmpty() returns (w: uint16)
      modifies wire
      ensures Polled(PointerSelect(TimeToEmptyPair), 2)
      ensures PolledRegister(wire.log) == Some(TimeToEmptyPair)
      ensures IsPairRead(LastAnswer(2), w)
    {
      SendFirstRegister(TimeToEmptyPair);
      w := RequestPairRegisters();
      PolledAfter(old(wire.log), PointerSelect(TimeToEmptyPair), 2);
    }

    /** Average power in mW, negative while discharging: the word read of register pair 0x24 as a short. */
    method GetAveragePowerMilli() returns (power: int16)
      modifies wire
      ensures Polled(PointerSelect(AveragePowerPair), 2)
      ensures PolledRegister(wire.log) == Some(AveragePowerPair)
      ensures IsPairRead(LastAnswer(2), FromInt16(power))
    {
      SendFirstRegister(AveragePowerPair);
      var w := RequestPairRegisters();
      power := ToInt16(w);
      PolledAfter(old(wire.log), PointerSelect(AveragePowerPair), 2);
    }

    /** Charge cycle count: a word read of register pair 0x2A. */
    method GetCycleCount() returns (w: uint16)
      modifies wire
      ensures Polled(PointerSelect(CycleCountPair), 2)
      ensures PolledRegister(wire.log) == Some(CycleCountPair)
      ensures IsPairRead(LastAnswer(2), w)
    {
      SendFirstRegister(CycleCountPair);
      w := RequestPairRegisters();
      PolledAfter(old(wire.log), PointerSelect(CycleCountPair), 2);
    }

    /** State of charge in percent: the word read of register pair 0x2C narrowed to its low byte, which is the first byte that arrives. */
    method GetStateOfCharge() returns (soc: uint8)
      modifies wire
      ensures Polled(PointerSelect(StateOfChargePair), 2)
      ensures PolledRegister(wire.log) == Some(StateOfChargePair)
      ensures soc == if LastAnswer(2) == [] then 0 else LastAnswer(2)[0]
    {
      SendFirstRegister(StateOfChargePair);
      var w := RequestPairRegisters();
      soc := LowByte(w);
      PolledAfter(old(wire.log), PointerSelect(StateOfChargePair), 2);
    }

    /** Design capacity in mAh: a word read of register pair 0x3C. */
    method GetDesignCapacity() returns (w: uint16)
      modifies wire
      ensures Polled(PointerSelect(DesignCapacityPair), 2)
      ensures PolledRegister(wire.log) == Some(DesignCapacityPair)
      ensures IsPairRead(LastAnswer(2), w)
    {
      SendFirstRegister(DesignCapacityPair);
      w := RequestPairRegisters();
      PolledAfter(old(wire.log), PointerSelect(DesignCapacityPair), 2);
    }

    /** Manufacturer info block A: block ManufactureBlockA selected, then the window read into the block buffer. */
    method GetManufacturerInfoBlockA() returns (block: seq<uint8>)
      requires Valid()
      modifies wire, blockData
      ensures Polled(BlockSelect(ManufactureBlockA), BlockLength)
      ensures PolledRegister(wire.log) == Some(BlockDataL)
      ensures StoredByte(wire.log, DataFlashBlock) == Some(ManufactureBlockA)
      ensures IsBlockRead(LastAnswer(BlockLength), old(blockData[..]), block)
      ensures block == blockData[..]
    {
      SendCommandManufactureBlock(ManufactureBlockA);
      PullBlockData(blockData);
      block := blockData[..];
      PolledAfter(old(wire.log), BlockSelect(ManufactureBlockA), BlockLength);
      PollKeepsGauge(old(wire.log) + BlockSelect(ManufactureBlockA), BlockLength);
    }

    /** Manufacturer info block B: block ManufactureBlockB selected, then the window read into the block buffer. */
    method GetManufacturerInfoBlockB() returns (block: seq<uint8>)
      requires Valid()
      modifies wire, blockData
      ensures Polled(BlockSelect(ManufactureBlockB), BlockLength)
      ensures PolledRegister(wire.log) == Some(BlockDataL)
      ensures StoredByte(wire.log, DataFlashBlock) == Some(ManufactureBlockB)
      ensures IsBlockRead(LastAnswer(BlockLength), old(blockData[..]), block)
      ensures block == blockData[..]
    {
      SendCommandManufactureBlock(ManufactureBlockB);
      PullBlockData(blockData);
      block := blockData[..];
      PolledAfter(old(wire.log), BlockSelect(ManufactureBlockB), BlockLength);
      PollKeepsGauge(old(wire.log) + BlockSelect(ManufactureBlockB), BlockLength);
    }

    /** Manufacturer info block C: block ManufactureBlockC selected, then the window read into the block buffer. */
    method GetManufacturerInfoBlockC() returns (block: seq<uint8>)
      requires Valid()
      modifies wire, blockData
      ensures Polled(BlockSelect(ManufactureBlockC), BlockLength)
      ensures PolledRegister(wire.log) == Some(BlockDataL)
      ensures StoredByte(wire.log, DataFlashBlock) == Some(ManufactureBlockC)
      ensures IsBlockRead(LastAnswer(BlockLength), old(blockData[..]), block)
      ensures block == blockData[..]
    {
      SendCommandManufactureBlock(ManufactureBlockC);
      PullBlockData(blockData);
      block := blockData[..];
      PolledAfter(old(wire.log), BlockSelect(ManufactureBlockC), BlockLength);
      PollKeepsGauge(old(wire.log) + BlockSelect(ManufactureBlockC), BlockLength);
    }

    /** The block data checksum: a one-byte read of register 0x60, 0 when nothing arrives. */
    method GetBlockDataChecksum() returns (checksum: uint8)
      modifies wire
      ensures Polled(PointerSelect(BlockDataChecksum), 1)
      ensures PolledRegister(wire.log) == Some(BlockDataChecksum)
      ensures checksum == if LastAnswer(1) == [] then 0 else LastAnswer(1)[0]
    {
      SendFirstRegister(BlockDataChecksum);
      checksum := RequestSingleRegister();
      PolledAfter(old(wire.log), PointerSelect(BlockDataChecksum), 1);
    }
  }
}

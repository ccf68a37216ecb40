/** The TSL2561 driver object: each public operation is a short, fixed
    sequence of bus transfers, and keeps its intermediate values in fields
    the way the driver does. */
module Driver {
  import opened Registers
  import opened LuxDecision
  import opened I2c

  /** Transfers of read_reg(reg, n): the command byte alone, then an n-byte read. */
  function ReadTraffic(reg: byte, n: nat): seq<Transfer>
  {
    [Transfer.Write([Cmd(reg)]), Transfer.Read(n)]
  }

  /** Transfer of one register write: the command byte and the value. */
  function WriteTraffic(reg: byte, v: byte): seq<Transfer>
  {
    [Transfer.Write([Cmd(reg), v])]
  }

  /** Transfers of a read-modify-write of `reg` that writes back `v`. */
  function RmwTraffic(reg: byte, v: byte): seq<Transfer>
  {
    ReadTraffic(reg, 1) + WriteTraffic(reg, v)
  }

  class Tsl2561 {
    /** The bus the device handle was opened on. */
    const bus: Bus

    // Intermediate values the operations leave behind.
    var data: seq<byte>
    var currentValue: byte
    var newValue: byte
    var msb: byte
    var lsb: byte
    var channel0: nat
    var channel1: nat
    var ch0: nat
    var ch1: nat
    var timingState: byte
    var gainVal: int
    var integrationTime: real

    ghost predicate Valid()
      reads this, bus
    {
      bus.Valid()
    }

    /** The device's register file. */
    ghost function Regs(): seq<byte>
      reads bus, bus.regs
    {
      bus.regs[..]
    }

    /** A driver for the device at the other end of `b`. */
    constructor (b: Bus)
      requires b.Valid()
      ensures Valid() && bus == b
    {
      bus := b;
      data := [];
    }

    /** read_reg: select `register`, then read `numbytes` bytes. */
    method ReadReg(register: byte, numbytes: nat) returns (d: seq<byte>)
      requires Valid()
      modifies this`data, bus, bus.regs
      ensures Valid() && bus.regs == old(bus.regs) && Regs() == old(Regs())
      ensures bus.selected == register & 0x0F
      ensures d == Window(old(Regs()), register & 0x0F, numbytes) && data == d
      ensures bus.log == old(bus.log) + ReadTraffic(register, numbytes)
    {
      bus.Write([Cmd(register)]);
      d := bus.Read(numbytes);
      data := d;
    }

    /** turn_on: power the device up (0x03) or down (0x00) with one write.
        `state` stands for the value the caller passes, compared the way the
        driver compares it: 1 is equal to True, 0 is equal to False, and any
        other value is neither and causes no bus traffic. */
    method TurnOn(state: int)
      requires Valid()
      modifies bus, bus.regs
      ensures Valid() && bus.regs == old(bus.regs)
      ensures state == 1 ==>
                && bus.log == old(bus.log) + [Transfer.Write([0x80, 0x03])]
                && Regs() == old(Regs())[ControlReg as int := PowerOn]
                && bus.selected == ControlReg
      ensures state == 0 ==>
                && bus.log == old(bus.log) + [Transfer.Write([0x80, 0x00])]
                && Regs() == old(Regs())[ControlReg as int := PowerOff]
                && bus.selected == ControlReg
      ensures state != 0 && state != 1 ==> unchanged(bus, bus.regs)
    {
      if state == 1 {
        bus.Write([Cmd(ControlReg), PowerOn]);
      } else if state == 0 {
        bus.Write([Cmd(ControlReg), PowerOff]);
      }
    }

    /** set_gain: "high" or "low" rewrite the gain bit of the timing register;
        any other string causes no bus traffic. */
    method SetGain(gain: string)
      requires Valid()
      modifies this`data, this`currentValue, this`newValue, bus, bus.regs
      ensures Valid() && bus.regs == old(bus.regs)
      ensures gain == "high" || gain == "low" ==>
                var cur := old(Regs())[TimingReg];
                var v := GainByte(cur, gain == "high");
                && bus.log == old(bus.log) + RmwTraffic(TimingReg, v)
                && Regs() == old(Regs())[TimingReg as int := v]
                && bus.selected == TimingReg
                && data == [cur] && currentValue == cur && newValue == v
      ensures gain != "high" && gain != "low" ==> unchanged(this, bus, bus.regs)
    {
      if gain == "high" || gain == "low" {
        var d := ReadReg(TimingReg, 1);
        currentValue := d[0];
        newValue := currentValue & GainKeep;
        if gain == "high" {
          newValue := newValue | GainHigh;
        }
        bus.Write([Cmd(TimingReg), newValue]);
      }
    }

    /** manual_integration: rewrite the manual-timing bit of the timing
        register, as the driver computes it (see ManualByte). A `mode` equal
        to True (1) asks for a start; any other value is treated as a stop. */
    method ManualIntegration(mode: int)
      requires Valid()
      modifies this`data, this`currentValue, this`newValue, bus, bus.regs
      ensures Valid() && bus.regs == old(bus.regs)
      ensures var cur := old(Regs())[TimingReg];
              var v := ManualByte(cur, mode == 1);
              && bus.log == old(bus.log) + RmwTraffic(TimingReg, v)
              && Regs() == old(Regs())[TimingReg as int := v]
              && bus.selected == TimingReg
              && data == [cur] && currentValue == cur && newValue == v
    {
      var d := ReadReg(TimingReg, 1);
      currentValue := d[0];
      newValue := currentValue & ManualKeep;
      if mode == 1 {
        newValue := newValue & ManualBit;
      }
      bus.Write([Cmd(TimingReg), newValue]);
    }

    /** set_integration_cycle: 0..3 rewrite the integration select field of the
        timing register; any other value causes no bus traffic. */
    method SetIntegrationCycle(cycle: int)
      requires Valid()
      modifies this`data, this`currentValue, this`newValue, bus, bus.regs
      ensures Valid() && bus.regs == old(bus.regs)
      ensures 0 <= cycle <= 3 ==>
                var cur := old(Regs())[TimingReg];
                var v := IntegrationByte(cur, cycle as byte);
                && bus.log == old(bus.log) + RmwTraffic(TimingReg, v)
                && Regs() == old(Regs())[TimingReg as int := v]
                && bus.selected == TimingReg
                && data == [cur] && currentValue == cur && newValue == v
      ensures !(0 <= cycle <= 3) ==> unchanged(this, bus, bus.regs)
    {
      if 0 <= cycle && cycle <= 3 {
        var d := ReadReg(TimingReg, 1);
        currentValue := d[0];
        newValue := currentValue & IntegrationKeep;
        newValue := newValue | cycle as byte;
        bus.Write([0x81, newValue]);
      }
    }

    /** set_threshold_low: a value in 0..0xFFFF is written low byte to 0x02,
        then high byte to 0x03; any other value causes no bus traffic. */
    method SetThresholdLow(threshold: int)
      requires Valid()
      modifies this`msb, this`lsb, bus, bus.regs
      ensures Valid() && bus.regs == old(bus.regs)
      ensures 0 <= threshold <= 0xFFFF ==>
                && (lsb, msb) == Split16(threshold)
                && bus.log == old(bus.log) + WriteTraffic(ThreshLowLowReg, lsb) + WriteTraffic(ThreshLowHighReg, msb)
                && Regs() == old(Regs())[ThreshLowLowReg as int := lsb][ThreshLowHighReg as int := msb]
                && bus.selected == ThreshLowHighReg
      ensures !(0 <= threshold <= 0xFFFF) ==> unchanged(this, bus, bus.regs)
    {
      if 0 <= threshold && threshold <= 0xFFFF {
        msb := (threshold / 256) as byte;
        lsb := (threshold % 256) as byte;
        bus.Write([Cmd(ThreshLowLowReg), lsb]);
        bus.Write([Cmd(ThreshLowHighReg), msb]);
      }
    }

    /** set_threshold_high: as SetThresholdLow, on registers 0x04 and 0x05. */
    method SetThresholdHigh(threshold: int)
      requires Valid()
      modifies this`msb, this`lsb, bus, bus.regs
      ensures Valid() && bus.regs == old(bus.regs)
      ensures 0 <= threshold <= 0xFFFF ==>
                && (lsb, msb) == Split16(threshold)
                && bus.log == old(bus.log) + WriteTraffic(ThreshHighLowReg, lsb) + WriteTraffic(ThreshHighHighReg, msb)
                && Regs() == old(Regs())[ThreshHighLowReg as int := lsb][ThreshHighHighReg as int := msb]
                && bus.selected == ThreshHighHighReg
      ensures !(0 <= threshold <= 0xFFFF) ==> unchanged(this, bus, bus.regs)
    {
      if 0 <= threshold && threshold <= 0xFFFF {
        msb := (threshold / 256) as byte;
        lsb := (threshold % 256) as byte;
        bus.Write([Cmd(ThreshHighLowReg), lsb]);
        bus.Write([Cmd(ThreshHighHighReg), msb]);
      }
    }

    /** interrupt_persist: 0..15 rewrite the persistence nibble of the interrupt
        register; any other value causes no bus traffic. */
    method InterruptPersist(time: int)
      requires Valid()
      modifies this`data, this`currentValue, this`newValue, bus, bus.regs
      ensures Valid() && bus.regs == old(bus.regs)
      ensures 0 <= time <= 15 ==>
                var cur := old(Regs())[InterruptReg];
                var v := PersistByte(cur, time as byte);
                && bus.log == old(bus.log) + RmwTraffic(InterruptReg, v)
                && Regs() == old(Regs())[InterruptReg as int := v]
                && bus.selected == InterruptReg
                && data == [cur] && currentValue == cur && newValue == v
      ensures !(0 <= time <= 15) ==> unchanged(this, bus, bus.regs)
    {
      if 0 <= time && time <= 15 {
        var d := ReadReg(InterruptReg, 1);
        currentValue := d[0];
        newValue := currentValue & PersistKeep;
        newValue := newValue | time as byte;
        bus.Write([Cmd(InterruptReg), newValue]);
      }
    }

    /** interrupt_mode: 0..3 rewrite bits 4-5 of the interrupt register; any
        other value causes no bus traffic. Mode 2 is written like the others. */
    method InterruptMode(mode: int)
      requires Valid()
      modifies this`data, this`currentValue, this`newValue, bus, bus.regs
      ensures Valid() && bus.regs == old(bus.regs)
      ensures 0 <= mode <= 3 ==>
                var cur := old(Regs())[InterruptReg];
                var v := ModeByte(cur, mode as byte);
                && bus.log == old(bus.log) + RmwTraffic(InterruptReg, v)
                && Regs() == old(Regs())[InterruptReg as int := v]
                && bus.selected == InterruptReg
                && data == [cur] && currentValue == cur && newValue == v
      ensures !(0 <= mode <= 3) ==> unchanged(this, bus, bus.regs)
    {
      if 0 <= mode && mode <= 3 {
        var d := ReadReg(InterruptReg, 1);
        currentValue := d[0];
        newValue := currentValue & ModeKeep;
        newValue := newValue | ((mode as byte) << 4);
        bus.Write([Cmd(InterruptReg), newValue]);
      }
    }

    /** chipid: select the id register, read one byte, return its upper nibble. */
    method ChipId() returns (id: byte)
      requires Valid()
      modifies this`data, bus, bus.regs
      ensures Valid() && bus.regs == old(bus.regs) && Regs() == old(Regs())
      ensures id == IdNibble(old(Regs())[IdReg])
      ensures data == [old(Regs())[IdReg]]
      ensures bus.log == old(bus.log) + ReadTraffic(IdReg, 1)
      ensures bus.selected == IdReg
    {
      bus.Write([0x8A]);
      data := bus.Read(1);
      id := data[0] >> 4;
    }

    /** read_data: one 4-byte read at 0x0C, decoded as two little-endian counts. */
    method ReadData() returns (c0: nat, c1: nat)
      requires Valid()
      modifies this`data, this`channel0, this`channel1, bus, bus.regs
      ensures Valid() && bus.regs == old(bus.regs) && Regs() == old(Regs())
      ensures data == old(Regs())[Data0LowReg..]
      ensures (c0, c1) == DecodeChannels(data)
      ensures channel0 == c0 && channel1 == c1
      ensures bus.log == old(bus.log) + ReadTraffic(Data0LowReg, 4)
      ensures bus.selected == Data0LowReg
    {
      var d := ReadReg(Data0LowReg, 4);
      channel0 := Join16(d[0], d[1]);
      channel1 := Join16(d[2], d[3]);
      c0, c1 := channel0, channel1;
    }

    /** lux: read the channels; a zero case returns at once, otherwise the
        timing register is read once for the gain and integration multipliers. */
    method Lux() returns (r: LuxReading)
      requires Valid()
      modifies this`data, this`channel0, this`channel1, this`ch0, this`ch1,
               this`timingState, this`gainVal, this`integrationTime, bus, bus.regs
      ensures Valid() && bus.regs == old(bus.regs) && Regs() == old(Regs())
      ensures var counts := DecodeChannels(old(Regs())[Data0LowReg..]);
              && channel0 == counts.0 && channel1 == counts.1
              && ch0 == counts.0 && ch1 == counts.1
              && r == LuxOf(ch0, ch1, old(Regs())[TimingReg])
      ensures IsZeroCase(LuxBranch(ch0, ch1)) ==>
                && bus.log == old(bus.log) + ReadTraffic(Data0LowReg, 4)
                && bus.selected == Data0LowReg && data == old(Regs())[Data0LowReg..]
                && timingState == old(timingState) && gainVal == old(gainVal)
                && integrationTime == old(integrationTime)
      ensures !IsZeroCase(LuxBranch(ch0, ch1)) ==>
                && bus.log == old(bus.log) + ReadTraffic(Data0LowReg, 4) + ReadTraffic(TimingReg, 1)
                && bus.selected == TimingReg && data == [timingState]
                && timingState == old(Regs())[TimingReg] && gainVal == GainMult(timingState)
                && (r.Scaled? ==> integrationTime == r.integration)
                && (!r.Scaled? ==> integrationTime == old(integrationTime))
    {
      var w0, w1 := ReadData();
      ch0, ch1 := w0, w1;
      var segment := LuxBranch(ch0, ch1);
      if IsZeroCase(segment) {
        r := Zero;
      } else {
        r := ScaleByTiming(segment);
      }
    }

    /** The second half of lux: read the timing register and pick the gain and
        integration multipliers for `segment`. */
    method ScaleByTiming(segment: LuxCase) returns (r: LuxReading)
      requires Valid()
      modifies this`data, this`timingState, this`gainVal, this`integrationTime, bus, bus.regs
      ensures Valid() && bus.regs == old(bus.regs) && Regs() == old(Regs())
      ensures r == ScaleOf(segment, old(Regs())[TimingReg])
      ensures timingState == old(Regs())[TimingReg] && gainVal == GainMult(timingState)
      ensures r.Scaled? ==> integrationTime == r.integration
      ensures !r.Scaled? ==> integrationTime == old(integrationTime)
      ensures bus.log == old(bus.log) + ReadTraffic(TimingReg, 1)
      ensures bus.selected == TimingReg && data == [timingState]
    {
      var t := ReadReg(TimingReg, 1);
      timingState := t[0];
      gainVal := GainValues[((timingState >> 4) & 0x01) as int];
      var i := (timingState & 0x03) as int;
      if i < |IntegrationTimes| {
        integrationTime := IntegrationTimes[i];
        r := Scaled(segment, gainVal, integrationTime);
      } else {
        r := IntegrationIndexError;
      }
    }

    /** clear_interrupt: the command byte with the clear bit, alone. */
    method ClearInterrupt()
      requires Valid()
      modifies bus, bus.regs
      ensures Valid() && bus.regs == old(bus.regs) && Regs() == old(Regs())
      ensures bus.log == old(bus.log) + [Transfer.Write([0xC0])]
      ensures bus.selected == ControlReg
    {
      bus.Write([Command | ClearBits]);
    }
  }
}

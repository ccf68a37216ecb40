/** Register map, command byte and the bit-field arithmetic of the TSL2561
    light sensor driver: everything the driver computes between reading a
    register and writing it back. */
module Registers {

  /** One byte on the bus. */
  type byte = bv8

  /** Marker bit 7: "this byte selects a register". */
  const Command: byte := 0x80

  // Register addresses (all below 0x10).
  const ControlReg: byte := 0x00
  const TimingReg: byte := 0x01
  const ThreshLowLowReg: byte := 0x02
  const ThreshLowHighReg: byte := 0x03
  const ThreshHighLowReg: byte := 0x04
  const ThreshHighHighReg: byte := 0x05
  const InterruptReg: byte := 0x06
  const IdReg: byte := 0x0A
  const Data0LowReg: byte := 0x0C
  const Data0HighReg: byte := 0x0D
  const Data1LowReg: byte := 0x0E
  const Data1HighReg: byte := 0x0F

  /** Control register values: power up / power down. */
  const PowerOn: byte := 0x03
  const PowerOff: byte := 0x00

  /** Command and clear-interrupt bits, sent alone to clear a pending interrupt. */
  const ClearBits: byte := 0xC0

  // Bits each read-modify-write setter preserves, and the fields it sets.
  const GainKeep: byte := 0x0B
  const GainHigh: byte := 0x10
  const ManualKeep: byte := 0x17
  const ManualBit: byte := 0x08
  const IntegrationKeep: byte := 0x18
  const PersistKeep: byte := 0x30
  const ModeKeep: byte := 0x0F

  /** The command byte that selects register `reg`. */
  function Cmd(reg: byte): (c: byte)
    ensures c & 0x80 == 0x80
    ensures c & 0x7F == reg & 0x7F
    ensures reg < 0x10 ==> 0x80 <= c < 0x90 && c & 0x0F == reg
  {
    Command | reg
  }

  /** The command bytes the driver writes as literals are the ones `Cmd` builds. */
  lemma HardCodedCommands()
    ensures Cmd(TimingReg) == 0x81
    ensures Cmd(IdReg) == 0x8A
    ensures Cmd(ClearBits) == 0xC0
    ensures Cmd(ControlReg) == 0x80
  {
  }

  /** Read-modify-write: keep the bits of `cur` selected by `keep`, then set `bits`. */
  function Rmw(cur: byte, keep: byte, bits: byte): (r: byte)
    ensures r & bits == bits
    ensures r & !(keep | bits) == 0
    ensures bits & keep == 0 ==> r & keep == cur & keep
  {
    (cur & keep) | bits
  }

  // Field decoders of the timing register.

  predicate GainIsHigh(timing: byte) { timing & GainHigh != 0 }

  predicate ManualIsSet(timing: byte) { timing & ManualBit != 0 }

  function IntegrationSelect(timing: byte): byte { timing & 0x03 }

  // Field decoders of the interrupt control register.

  function PersistCount(interrupt: byte): byte { interrupt & 0x0F }

  function InterruptModeOf(interrupt: byte): byte { (interrupt >> 4) & 0x03 }

  /** Timing byte written by set_gain: integration bits 0, 1 and the manual bit 3
      survive, bit 4 is the gain, everything else is cleared. */
  function GainByte(cur: byte, high: bool): (r: byte)
    ensures r & GainKeep == cur & GainKeep
    ensures GainIsHigh(r) == high
    ensures r & 0xE4 == 0
  {
    Rmw(cur, GainKeep, if high then GainHigh else 0)
  }

  /** Timing byte written by set_integration_cycle: bits 3 and 4 survive and the
      integration select field holds `t`. */
  function IntegrationByte(cur: byte, t: byte): (r: byte)
    requires t <= 3
    ensures r & IntegrationKeep == cur & IntegrationKeep
    ensures IntegrationSelect(r) == t
    ensures r & 0xE4 == 0
  {
    Rmw(cur, IntegrationKeep, t)
  }

  /** Interrupt byte written by interrupt_persist: the mode bits 4, 5 survive and
      the persistence field holds `n`. */
  function PersistByte(cur: byte, n: byte): (r: byte)
    requires n <= 15
    ensures r & PersistKeep == cur & PersistKeep
    ensures PersistCount(r) == n
    ensures InterruptModeOf(r) == InterruptModeOf(cur)
    ensures r & 0xC0 == 0
  {
    Rmw(cur, PersistKeep, n)
  }

  /** Interrupt byte written by interrupt_mode: the persistence nibble survives
      and bits 4, 5 hold `m`. */
  function ModeByte(cur: byte, m: byte): (r: byte)
    requires m <= 3
    ensures r & ModeKeep == cur & ModeKeep
    ensures PersistCount(r) == PersistCount(cur)
    ensures InterruptModeOf(r) == m
    ensures r & 0xC0 == 0
  {
    Rmw(cur, ModeKeep, m << 4)
  }

  /** set_gain and set_integration_cycle leave each other's field alone, in
      either order. */
  lemma TimingSettersCommute(cur: byte, high: bool, t: byte)
    requires t <= 3
    ensures GainIsHigh(IntegrationByte(GainByte(cur, high), t)) == high
    ensures IntegrationSelect(GainByte(IntegrationByte(cur, t), high)) == t
    ensures IntegrationByte(GainByte(cur, high), t) == GainByte(IntegrationByte(cur, t), high)
  {
  }

  /** interrupt_persist and interrupt_mode leave each other's field alone, in
      either order. */
  lemma InterruptSettersCommute(cur: byte, n: byte, m: byte)
    requires n <= 15 && m <= 3
    ensures PersistCount(ModeByte(PersistByte(cur, n), m)) == n
    ensures InterruptModeOf(PersistByte(ModeByte(cur, m), n)) == m
    ensures ModeByte(PersistByte(cur, n), m) == PersistByte(ModeByte(cur, m), n)
  {
  }

  /** Timing byte written by manual_integration, as the driver computes it: the
      manual bit is masked off, and "start" then ANDs with that same bit, so a
      start request writes zero. */
  function ManualByte(cur: byte, start: bool): (r: byte)
    ensures !start ==> r & ManualKeep == cur & ManualKeep && !ManualIsSet(r) && r & 0xE8 == 0
    ensures start ==> r == 0
  {
    var kept := cur & ManualKeep;
    if start then kept & ManualBit else kept
  }

  /** Timing byte manual_integration evidently means to write: bits 0-2 and 4
      survive and bit 3 is set exactly when starting an integration. */
  function ManualByteIntended(cur: byte, start: bool): (r: byte)
    ensures r & ManualKeep == cur & ManualKeep
    ensures ManualIsSet(r) == start
    ensures r & 0xE0 == 0
  {
    Rmw(cur, ManualKeep, if start then ManualBit else 0)
  }

  /** The two agree on "stop" and disagree on every "start": as written, a start
      request never sets the manual bit and wipes gain and integration select. */
  lemma ManualStartDiverges(cur: byte)
    ensures ManualByte(cur, false) == ManualByteIntended(cur, false)
    ensures ManualByte(cur, true) != ManualByteIntended(cur, true)
    ensures !ManualIsSet(ManualByte(cur, true))
    ensures cur & 0x13 != 0 ==> ManualByte(cur, true) & 0x13 != cur & 0x13
  {
  }

  /** A 16-bit value from its two register bytes: `(msb << 8) + lsb` on the
      driver's unbounded integers. */
  function Join16(lsb: byte, msb: byte): (w: nat)
    ensures w < 0x10000
    ensures w % 256 == lsb as int && w / 256 == msb as int
  {
    msb as int * 256 + lsb as int
  }

  /** An integer below 256 survives the trip through a byte. */
  lemma ByteRoundTrip(n: int)
    requires 0 <= n < 256
    ensures (n as byte) as int == n
  {
    var b := n as bv16;
    assert b < 256;
    assert (b as byte) as bv16 == b;
  }

  /** A byte survives the trip through an integer. */
  lemma IntRoundTrip(b: byte)
    ensures (b as int) as byte == b
  {
  }

  /** The split of set_threshold_low/high: `w & 0xFF` and `w >> 8`, which for a
      value in 0..0xFFFF are its remainder and quotient by 256. */
  function Split16(w: nat): (bytes: (byte, byte))
    requires w < 0x10000
    ensures Join16(bytes.0, bytes.1) == w
  {
    ByteRoundTrip(w % 256);
    ByteRoundTrip(w / 256);
    ((w % 256) as byte, (w / 256) as byte)
  }

  /** Splitting a joined pair gives the pair back. */
  lemma {:induction false} SplitJoin(lsb: byte, msb: byte)
    ensures Split16(Join16(lsb, msb)) == (lsb, msb)
  {
    IntRoundTrip(lsb);
    IntRoundTrip(msb);
  }

  /** Chip id: the upper nibble of the id register. */
  function IdNibble(b: byte): (id: byte)
    ensures id < 16
    ensures id << 4 == b & 0xF0
  {
    b >> 4
  }

  /** The two little-endian channel counts in a 4-byte read starting at 0x0C. */
  function DecodeChannels(d: seq<byte>): (ch: (nat, nat))
    requires |d| == 4
    ensures ch.0 < 0x10000 && ch.1 < 0x10000
    ensures Split16(ch.0) == (d[0], d[1]) && Split16(ch.1) == (d[2], d[3])
  {
    SplitJoin(d[0], d[1]);
    SplitJoin(d[2], d[3]);
    (Join16(d[0], d[1]), Join16(d[2], d[3]))
  }
}

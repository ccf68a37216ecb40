/** The two-wire bus the driver talks through, modelled as the device on the
    other end: sixteen 8-bit registers, the register the last command byte
    selected, and a log of every transfer in the order it happened. */
module I2c {
  import opened Registers

  /** One transfer on the bus: bytes written, or a count of bytes read. */
  datatype Transfer = Write(bytes: seq<byte>) | Read(count: nat)

  /** The `n` register values a read returns when `start` is selected; the
      address wraps within the sixteen registers. */
  function Window(regs: seq<byte>, start: byte, n: nat): seq<byte>
    requires |regs| == 16
  {
    seq(n, i requires 0 <= i < n => regs[(start as int + i) % 16])
  }

  class Bus {
    var regs: array<byte>
    var selected: byte
    var log: seq<Transfer>

    ghost predicate Valid()
      reads this
    {
      regs.Length == 16 && selected < 16
    }

    /** A device whose registers hold `init`, with register 0 selected. */
    constructor (init: seq<byte>)
      requires |init| == 16
      ensures Valid() && fresh(regs)
      ensures regs[..] == init && selected == 0 && log == []
    {
      regs := new byte[16](i requires 0 <= i < 16 => init[i]);
      selected := 0;
      log := [];
    }

    /** Writes `bytes`: the first byte selects register `bytes[0] & 0x0F`, a
        second byte is stored in that register. */
    method Write(bytes: seq<byte>)
      requires Valid() && |bytes| > 0
      modifies this, regs
      ensures Valid() && regs == old(regs)
      ensures selected == bytes[0] & 0x0F
      ensures regs[..] == if |bytes| > 1 then old(regs[..])[selected as int := bytes[1]] else old(regs[..])
      ensures log == old(log) + [Transfer.Write(bytes)]
    {
      selected := bytes[0] & 0x0F;
      if |bytes| > 1 {
        regs[selected as int] := bytes[1];
      }
      log := log + [Transfer.Write(bytes)];
    }

    /** Reads `n` bytes starting at the selected register. */
    method Read(n: nat) returns (d: seq<byte>)
      requires Valid()
      modifies this`log
      ensures Valid()
      ensures d == Window(regs[..], selected, n)
      ensures log == old(log) + [Transfer.Read(n)]
    {
      d := Window(regs[..], selected, n);
      log := log + [Transfer.Read(n)];
    }
  }
}

/**
 * The FX2 registers that the pipe firmware programs, and the meaning of the
 * bit fields that the six configuration bytes end up in.  The layouts are the
 * ones documented beside each assignment in firmware/fx2pipe.c.
 */
module Fx2Registers {

  /** Memory-mapped registers written by the firmware's initialisation. */
  datatype Reg =
    | CPUCS | IFCONFIG | REVCTL | PORTACFG | FIFOPINPOLAR
    | EP6CFG | EP2CFG | EP6FIFOCFG | EP2FIFOCFG | OEA
    | FIFORESET | EP6AUTOINLENH | EP6AUTOINLENL | OUTPKTEND

  /** One assignment of `value` to register `reg`. */
  datatype RegWrite = RegWrite(reg: Reg, value: bv8)

  /** First configuration byte of an IN (device to host, endpoint 6) run. */
  const DirectionIn: bv8 := 0x12
  /** First configuration byte of an OUT (host to device, endpoint 2) run. */
  const DirectionOut: bv8 := 0x21

  /** The CPU clock codes the host uses for 12, 24 and 48 MHz. */
  const MHZ12 := 0
  const MHZ24 := 1
  const MHZ48 := 2
  /** The reserved CLKSPD code 11, which names no clock speed. */
  const ClockSpeedReserved := 3

  /** Whether the bits of `mask` are set in `b`. */
  predicate Has(b: bv8, mask: bv8)
  {
    b & mask == mask
  }

  /**
   * Number of FIFO buffers selected by the BUF1..0 field of EPxCFG:
   * 00 quad, 10 double, 11 triple; 01 is reserved and has no count.
   */
  function BufferCount(epcfg: bv8): (n: int)
  {
    var buf := epcfg & 0x03;
    if buf == 0x00 then 4 else if buf == 0x02 then 2 else if buf == 0x03 then 3 else 0
  }

  /**
   * The CPU clock selected by the CLKSPD1..0 field (bits 4..3) of CPUCS:
   * 00, 01 and 10 are MHZ12, MHZ24 and MHZ48; 11 is reserved.
   */
  function CpuSpeed(cpucs: bv8): int
  {
    var spd := cpucs & 0x18;
    if spd == 0x00 then MHZ12 else if spd == 0x08 then MHZ24 else if spd == 0x10 then MHZ48 else ClockSpeedReserved
  }

  /**
   * What IFCONFIG says: IFCLKSRC (bit 7, internal clock), 3048MHZ (bit 6),
   * IFCLKOE (bit 5, clock driven out), IFCLKPOL (bit 4, inverted),
   * ASYNC (bit 3), and IFCFG (bits 1..0) equal to 11, slave FIFO mode.
   */
  datatype InterfaceSetup = InterfaceSetup(
    internalClock: bool, clock48Mhz: bool, clockOut: bool, clockInverted: bool,
    async: bool, slaveFifo: bool)

  function InterfaceOf(ifconfig: bv8): InterfaceSetup
  {
    InterfaceSetup(Has(ifconfig, 0x80), Has(ifconfig, 0x40), Has(ifconfig, 0x20), Has(ifconfig, 0x10),
                   Has(ifconfig, 0x08), ifconfig & 0x03 == 0x03)
  }

  /**
   * What EPxCFG says: VALID (bit 7), DIR (bit 6, IN), TYPE (bits 5..4, 10 is
   * bulk), SIZE (bit 3, clear for 512-byte packets) and the buffer count of BUF.
   */
  datatype EndpointSetup = EndpointSetup(valid: bool, dirIn: bool, bulk: bool, size512: bool, buffers: int)

  function EndpointOf(epcfg: bv8): EndpointSetup
  {
    EndpointSetup(Has(epcfg, 0x80), Has(epcfg, 0x40), epcfg & 0x30 == 0x20, epcfg & 0x08 == 0,
                  BufferCount(epcfg))
  }

  /** What EPxFIFOCFG says: AUTOOUT (bit 4), AUTOIN (bit 3), ZEROLENIN (bit 2), WORDWIDE (bit 0, 16-bit bus). */
  datatype FifoSetup = FifoSetup(autoOut: bool, autoIn: bool, zeroLenIn: bool, wordWide: bool)

  function FifoOf(fifocfg: bv8): FifoSetup
  {
    FifoSetup(Has(fifocfg, 0x10), Has(fifocfg, 0x08), Has(fifocfg, 0x04), Has(fifocfg, 0x01))
  }

  /** What CPUCS says: the CPU clock (CLKSPD), CLKINV (bit 2) and CLKOE (bit 1). */
  datatype CpuSetup = CpuSetup(speed: int, clockOutInverted: bool, clockOutDriven: bool)

  function CpuOf(cpucs: bv8): CpuSetup
  {
    CpuSetup(CpuSpeed(cpucs), Has(cpucs, 0x04), Has(cpucs, 0x02))
  }

  /** Which FIFO pins FIFOPINPOLAR makes active high: FF, EF, SLWR, SLRD, SLOE and PKTEND, bits 0 to 5. */
  datatype PinSetup = PinSetup(full: bool, empty: bool, slwr: bool, slrd: bool, sloe: bool, pktend: bool)

  function PinsOf(polarity: bv8): PinSetup
  {
    PinSetup(Has(polarity, 0x01), Has(polarity, 0x02), Has(polarity, 0x04), Has(polarity, 0x08),
             Has(polarity, 0x10), Has(polarity, 0x20))
  }
}

/**
 * The host side of the device configuration: `main` in src/cannelloni.c
 * packs the chosen options into the six bytes that are written to the
 * controller's RAM at 0x1003 before the firmware starts.
 */
module FirmwareConfig {
  import opened Wrappers
  import opened Fx2Registers
  import opened OptionParsers

  /** The six `invertQueue...Pin` options (-l, -e, -x, -r, -j, -k). */
  datatype PinPolarity = PinPolarity(
    invertQueueFullPin: bool, invertQueueEmptyPin: bool, invertQueueSLWRPin: bool,
    invertQueueSLRDPin: bool, invertQueueSLOEPin: bool, invertQueuePKTENDPin: bool)

  /** The options `main` has collected when it builds the configuration. */
  datatype Options = Options(
    directionIN: bool, disableInOut: bool, use8BitBus: bool, numBuffers: int, runAsyncBus: bool,
    ifclk: IfClock, cpu: CpuClock, pins: PinPolarity)

  /** The settings before any option is parsed. */
  const Defaults: Options := Options(
    true, false, false, 4, false,
    IfClock(false, true, false, false),
    CpuClock(MHZ48, false, false),
    PinPolarity(false, false, false, false, false, false))

  /** A configuration as the firmware's registers read it: the direction and each register's fields. */
  datatype Setup = Setup(
    directionIN: bool, iface: InterfaceSetup, endpoint: EndpointSetup, fifo: FifoSetup,
    cpu: CpuSetup, pins: PinSetup)

  /**
   * How the firmware interprets six configuration bytes: byte 0 chooses the
   * direction and must be one of the two markers; bytes 1 to 5 go to IFCONFIG,
   * EPxCFG, EPxFIFOCFG, CPUCS and FIFOPINPOLAR.
   */
  function Decode(cfg: seq<bv8>): Option<Setup>
    requires |cfg| == 6
  {
    if cfg[0] == DirectionIn || cfg[0] == DirectionOut then
      Some(Setup(cfg[0] == DirectionIn, InterfaceOf(cfg[1]), EndpointOf(cfg[2]), FifoOf(cfg[3]),
                 CpuOf(cfg[4]), PinsOf(cfg[5])))
    else
      None
  }

  /**
   * What the options ask of the controller: slave FIFO mode on a valid 512-byte
   * bulk endpoint in the chosen direction; double or triple buffering when
   * asked for and quadruple otherwise; AUTOIN with zero-length packets for IN,
   * AUTOOUT for OUT; a 16-bit bus unless `-8`; a 12 or 24 MHz CPU when asked
   * for and 48 MHz otherwise.
   */
  function Intended(o: Options): Setup
  {
    Setup(
      o.directionIN,
      InterfaceSetup(!o.ifclk.useIFCLK, o.ifclk.use48MhzInternalCLK, o.ifclk.redirectToCLKOUT,
                     o.ifclk.invertIFCLK, o.runAsyncBus, true),
      EndpointSetup(true, o.directionIN, true, true,
                    if o.numBuffers == 2 then 2 else if o.numBuffers == 3 then 3 else 4),
      FifoSetup(!o.directionIN, o.directionIN, o.directionIN, !o.use8BitBus),
      CpuSetup(if o.cpu.cpuMHz == MHZ12 then MHZ12 else if o.cpu.cpuMHz == MHZ24 then MHZ24 else MHZ48,
               o.cpu.invertCLKOUT, o.cpu.enableCLKOUTDriver),
      PinSetup(o.pins.invertQueueFullPin, o.pins.invertQueueEmptyPin, o.pins.invertQueueSLWRPin,
               o.pins.invertQueueSLRDPin, o.pins.invertQueueSLOEPin, o.pins.invertQueuePKTENDPin))
  }

  /**
   * A configuration the firmware reads back as the intended setup carries
   * the CLKSPD code of the requested clock in byte 4: 00, 01 or 10, never
   * the reserved 11.
   */
  lemma IntendedClockCode(cfg: seq<bv8>, o: Options)
    requires |cfg| == 6 && Decode(cfg) == Some(Intended(o))
    ensures cfg[4] & 0x18 == (if o.cpu.cpuMHz == MHZ12 then 0x00 else if o.cpu.cpuMHz == MHZ24 then 0x08 else 0x10)
  {
    assert CpuSpeed(cfg[4]) == Intended(o).cpu.speed;
  }

  function Flag(b: bool, mask: bv8): bv8
  {
    if b then mask else 0x00
  }

  /** IFCONFIG as the options set it; bit 2 stays clear. */
  function IfconfigByte(ifc: IfClock, runAsyncBus: bool): (b: bv8)
    ensures InterfaceOf(b) ==
      InterfaceSetup(!ifc.useIFCLK, ifc.use48MhzInternalCLK, ifc.redirectToCLKOUT, ifc.invertIFCLK, runAsyncBus, true)
    ensures b & 0x04 == 0
  {
    Flag(!ifc.useIFCLK, 0x80) | Flag(ifc.use48MhzInternalCLK, 0x40) | Flag(ifc.redirectToCLKOUT, 0x20)
    | Flag(ifc.invertIFCLK, 0x10) | Flag(runAsyncBus, 0x08) | 0x03
  }

  /** EPxCFG as the options set it; bits 3..2 stay clear. */
  function EndpointByte(directionIN: bool, numBuffers: int): (b: bv8)
    ensures EndpointOf(b) ==
      EndpointSetup(true, directionIN, true, true, if numBuffers == 2 then 2 else if numBuffers == 3 then 3 else 4)
    ensures b & 0x0c == 0
  {
    0x80 | Flag(directionIN, 0x40) | 0x20 | (if numBuffers == 2 then 0x02 else if numBuffers == 3 then 0x03 else 0x00)
  }

  /** EPxFIFOCFG as the options set it; bits 7..5 and 1 stay clear. */
  function FifoByte(directionIN: bool, use8BitBus: bool): (b: bv8)
    ensures FifoOf(b) == FifoSetup(!directionIN, directionIN, directionIN, !use8BitBus)
    ensures b & 0xe2 == 0
  {
    (if directionIN then 0x0d else 0x11) & (if use8BitBus then 0xfe else 0xff)
  }

  /** CPUCS as the options set it; bits 7..5 and 0 stay clear. */
  function CpucsByte(cpu: CpuClock): (b: bv8)
    ensures CpuOf(b) ==
      CpuSetup(if cpu.cpuMHz == MHZ12 then MHZ12 else if cpu.cpuMHz == MHZ24 then MHZ24 else MHZ48,
               cpu.invertCLKOUT, cpu.enableCLKOUTDriver)
    ensures b & 0xe1 == 0
  {
    (if cpu.cpuMHz == MHZ12 then 0x00 else if cpu.cpuMHz == MHZ24 then 0x08 else 0x10)
    | Flag(cpu.invertCLKOUT, 0x04) | Flag(cpu.enableCLKOUTDriver, 0x02)
  }

  /** FIFOPINPOLAR as the options set it; bits 7..6 stay clear. */
  function PolarityByte(pins: PinPolarity): (b: bv8)
    ensures PinsOf(b) ==
      PinSetup(pins.invertQueueFullPin, pins.invertQueueEmptyPin, pins.invertQueueSLWRPin,
               pins.invertQueueSLRDPin, pins.invertQueueSLOEPin, pins.invertQueuePKTENDPin)
    ensures b & 0xc0 == 0
  {
    Flag(pins.invertQueueFullPin, 0x01) | Flag(pins.invertQueueEmptyPin, 0x02)
    | Flag(pins.invertQueueSLWRPin, 0x04) | Flag(pins.invertQueueSLRDPin, 0x08)
    | Flag(pins.invertQueueSLOEPin, 0x10) | Flag(pins.invertQueuePKTENDPin, 0x20)
  }

  /**
   * The six configuration bytes for the options.  The firmware reads back
   * exactly the setup the options ask for, and every bit outside the fields
   * it reads is clear.
   */
  function ConfigImage(o: Options): (cfg: seq<bv8>)
    ensures |cfg| == 6
    ensures Decode(cfg) == Some(Intended(o))
    ensures cfg[1] & 0x04 == 0 && cfg[2] & 0x0c == 0 && cfg[3] & 0xe2 == 0
    ensures cfg[4] & 0xe1 == 0 && cfg[5] & 0xc0 == 0
  {
    [ if o.directionIN then DirectionIn else DirectionOut,
      IfconfigByte(o.ifclk, o.runAsyncBus),
      EndpointByte(o.directionIN, o.numBuffers),
      FifoByte(o.directionIN, o.use8BitBus),
      CpucsByte(o.cpu),
      PolarityByte(o.pins) ]
  }

  /** With no options: IN, internal 48 MHz interface clock, quad-buffered bulk, 16-bit AUTOIN, 48 MHz CPU. */
  lemma DefaultsImage()
    ensures ConfigImage(Defaults) == [0x12, 0xc3, 0xe0, 0x0d, 0x10, 0x00]
  {
  }

  /**
   * The encoder block of `main`: clear the six bytes, then set them one by
   * one, OR-ing in one field at a time.
   */
  method FillFirmwareConfig(firmwareConfig: array<bv8>, o: Options)
    requires firmwareConfig.Length == 6
    modifies firmwareConfig
    ensures firmwareConfig[..] == ConfigImage(o)
  {
    for i := 0 to firmwareConfig.Length
      invariant forall k :: 0 <= k < i ==> firmwareConfig[k] == 0
    {
      firmwareConfig[i] := 0;
    }
    firmwareConfig[0] := if o.directionIN then 0x12 else 0x21;
    SetInterfaceByte(firmwareConfig, o.ifclk, o.runAsyncBus);
    SetEndpointByte(firmwareConfig, o.directionIN, o.numBuffers);
    SetFifoByte(firmwareConfig, o.directionIN, o.use8BitBus);
    SetCpuByte(firmwareConfig, o.cpu);
    SetPolarityByte(firmwareConfig, o.pins);
  }

  /** Byte 1, starting from zero: the interface clock options, async mode and slave FIFO mode. */
  method SetInterfaceByte(firmwareConfig: array<bv8>, ifc: IfClock, runAsyncBus: bool)
    requires firmwareConfig.Length == 6 && firmwareConfig[1] == 0
    modifies firmwareConfig
    ensures firmwareConfig[..] == old(firmwareConfig[..])[1 := IfconfigByte(ifc, runAsyncBus)]
  {
    if !ifc.useIFCLK { firmwareConfig[1] := firmwareConfig[1] | 0x80; }
    if ifc.use48MhzInternalCLK { firmwareConfig[1] := firmwareConfig[1] | 0x40; }
    if ifc.redirectToCLKOUT { firmwareConfig[1] := firmwareConfig[1] | 0x20; }
    if ifc.invertIFCLK { firmwareConfig[1] := firmwareConfig[1] | 0x10; }
    if runAsyncBus { firmwareConfig[1] := firmwareConfig[1] | 0x08; }
    firmwareConfig[1] := firmwareConfig[1] | 0x03;
  }

  /** Byte 2: a valid bulk endpoint, its direction, and double or triple buffering when asked for. */
  method SetEndpointByte(firmwareConfig: array<bv8>, directionIN: bool, numBuffers: int)
    requires firmwareConfig.Length == 6
    modifies firmwareConfig
    ensures firmwareConfig[..] == old(firmwareConfig[..])[2 := EndpointByte(directionIN, numBuffers)]
  {
    firmwareConfig[2] := 0x80;
    if directionIN { firmwareConfig[2] := firmwareConfig[2] | 0x40; }
    firmwareConfig[2] := firmwareConfig[2] | 0x20;
    if numBuffers == 2 {
      firmwareConfig[2] := firmwareConfig[2] | 0x02;
    } else if numBuffers == 3 {
      firmwareConfig[2] := firmwareConfig[2] | 0x03;
    }
  }

  /** Byte 3: AUTOIN and ZEROLENIN for IN, AUTOOUT for OUT, WORDWIDE cleared for an 8-bit bus. */
  method SetFifoByte(firmwareConfig: array<bv8>, directionIN: bool, use8BitBus: bool)
    requires firmwareConfig.Length == 6
    modifies firmwareConfig
    ensures firmwareConfig[..] == old(firmwareConfig[..])[3 := FifoByte(directionIN, use8BitBus)]
  {
    firmwareConfig[3] := if directionIN then 0x0d else 0x11;
    if use8BitBus { firmwareConfig[3] := firmwareConfig[3] & 0xfe; }
  }

  /** Byte 4, starting from zero: the CPU clock and the CLKOUT options. */
  method SetCpuByte(firmwareConfig: array<bv8>, cpu: CpuClock)
    requires firmwareConfig.Length == 6 && firmwareConfig[4] == 0
    modifies firmwareConfig
    ensures firmwareConfig[..] == old(firmwareConfig[..])[4 := CpucsByte(cpu)]
  {
    if cpu.cpuMHz == MHZ12 {
    } else if cpu.cpuMHz == MHZ24 {
      firmwareConfig[4] := firmwareConfig[4] | 0x08;
    } else {
      firmwareConfig[4] := firmwareConfig[4] | 0x10;
    }
    if cpu.invertCLKOUT { firmwareConfig[4] := firmwareConfig[4] | 0x04; }
    if cpu.enableCLKOUTDriver { firmwareConfig[4] := firmwareConfig[4] | 0x02; }
  }

  /** Byte 5, starting from zero: one bit per inverted FIFO pin. */
  method SetPolarityByte(firmwareConfig: array<bv8>, pins: PinPolarity)
    requires firmwareConfig.Length == 6 && firmwareConfig[5] == 0
    modifies firmwareConfig
    ensures firmwareConfig[..] == old(firmwareConfig[..])[5 := PolarityByte(pins)]
  {
    if pins.invertQueueFullPin { firmwareConfig[5] := firmwareConfig[5] | 0x01; }
    if pins.invertQueueEmptyPin { firmwareConfig[5] := firmwareConfig[5] | 0x02; }
    if pins.invertQueueSLWRPin { firmwareConfig[5] := firmwareConfig[5] | 0x04; }
    if pins.invertQueueSLRDPin { firmwareConfig[5] := firmwareConfig[5] | 0x08; }
    if pins.invertQueueSLOEPin { firmwareConfig[5] := firmwareConfig[5] | 0x10; }
    if pins.invertQueuePKTENDPin { firmwareConfig[5] := firmwareConfig[5] | 0x20; }
  }
}

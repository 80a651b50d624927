/**
 * The host's configuration bytes read by the firmware: whatever options
 * `main` in src/cannelloni.c encodes, `Initialize` in firmware/fx2pipe.c
 * accepts the configuration and leaves the controller's registers set up as
 * the options ask.
 */
module EndToEnd {
  import opened Wrappers
  import opened Fx2Registers
  import opened FirmwareConfig
  import opened Fx2Pipe

  /** The value `reg` holds once the firmware has run on the host's configuration for `o`. */
  function Configured(o: Options, reg: Reg): Option<bv8>
  {
    LastWritten(InitSequence(ConfigImage(o)), reg)
  }

  /**
   * The firmware accepts every configuration the host builds, and writes
   * CPUCS, IFCONFIG and FIFOPINPOLAR once each, to values whose fields are
   * the clock, interface and pin settings the options ask for.
   */
  lemma HostConfigAccepted(o: Options)
    ensures ConfigValid(ConfigImage(o))
    ensures var cfg := ConfigImage(o);
      Written(InitSequence(cfg), CPUCS) == [cfg[4]] && CpuOf(cfg[4]) == Intended(o).cpu
      && Written(InitSequence(cfg), IFCONFIG) == [cfg[1]] && InterfaceOf(cfg[1]) == Intended(o).iface
      && Written(InitSequence(cfg), FIFOPINPOLAR) == [cfg[5]] && PinsOf(cfg[5]) == Intended(o).pins
  {
    var cfg := ConfigImage(o);
    InitClocksAndPolarity(cfg);
    assert cfg[5] & 0x3f == cfg[5] by {
      BelowTopBits(cfg[5]);
    }
  }

  /**
   * The direction chosen on the host selects the endpoint: IN configures
   * endpoint 6 and leaves endpoint 2 reset, OUT the other way round, each
   * with the endpoint and FIFO fields the options ask for.
   */
  lemma HostConfigEndpoint(o: Options)
    ensures var cfg := ConfigImage(o);
      if o.directionIN then
        Configured(o, EP6CFG) == Some(cfg[2]) && Configured(o, EP6FIFOCFG) == Some(cfg[3])
        && Configured(o, EP2CFG) == Some(0x00) && Configured(o, EP2FIFOCFG) == Some(0x00)
      else
        Configured(o, EP2CFG) == Some(cfg[2]) && Configured(o, EP2FIFOCFG) == Some(cfg[3])
        && Configured(o, EP6CFG) == Some(0x00) && Configured(o, EP6FIFOCFG) == Some(0x00)
    ensures var cfg := ConfigImage(o);
      EndpointOf(cfg[2]) == Intended(o).endpoint && EndpointOf(cfg[2]).dirIn == o.directionIN
      && FifoOf(cfg[3]) == Intended(o).fifo
  {
    var cfg := ConfigImage(o);
    Endpoint6Final(cfg);
    Endpoint2Final(cfg);
  }

  /**
   * An OUT run arms endpoint 2 with one OUTPKTEND write per buffer: 2 or 3
   * when `-2` or `-3` was given, 4 otherwise.  An IN run never writes
   * OUTPKTEND.
   */
  lemma HostConfigPrimes(o: Options)
    ensures var w := Written(InitSequence(ConfigImage(o)), OUTPKTEND);
      (!o.directionIN ==> |w| == (if o.numBuffers == 2 then 2 else if o.numBuffers == 3 then 3 else 4))
      && (o.directionIN ==> w == [])
  {
    var cfg := ConfigImage(o);
    InitPrimes(cfg);
    assert BufferCount(cfg[2]) == EndpointOf(cfg[2]).buffers;
  }

  /** A byte whose two top bits are clear is unchanged by masking with 0x3f. */
  lemma BelowTopBits(b: bv8)
    requires b & 0xc0 == 0
    ensures b & 0x3f == b
  {
  }
}

# cannelloni in Dafny

cannelloni is a host tool that uploads a FIFO-pipe firmware to a Cypress
EZ-USB FX2 controller. It then streams bytes in one of two directions:
from a bulk endpoint to stdout (IN), or from stdin to a bulk endpoint (OUT).
This project models the logic of that tool outside of USB and I/O, and proves
what it does:

- **Option parsing.** `parseOptionC` and `parseOptionZ` recognise the values
  of `-c` (interface clock) and `-z` (CPU clock). `main` also checks `-b`
  (block size), `-n` (byte limit) and the divisibility of the limit by the
  block size. These are in the modules `OptionParsers` and `Arguments`.
- **Configuration encoder.** `main` packs the options into the six bytes that
  are written to the controller before its firmware starts
  (`FirmwareConfig`).
- **Firmware initialisation.** `Initialize` in the firmware reads those six
  bytes back and programs the controller's registers (`Fx2Registers`,
  `Fx2Pipe`). It is modelled as a function from the six bytes to the ordered
  list of register writes, `Fx2Pipe.InitSequence`.
  `Fx2Pipe.Written(w, reg)` is the sequence of values that list writes to one
  register.
- **End to end.** Composing the encoder with the firmware shows that every
  configuration the host builds is accepted and sets up the intended
  endpoint (`EndToEnd`).
- **Data phase.** This is the `while (!doTerminate)` transfer loop with its
  two unsigned 64-bit counters (`Transfer`).
  - `Transfer.Step` defines one iteration and `Transfer.Run` a whole run.
  - `Transfer.TransferLoop`, the loop over an `array` buffer, is proved to
    compute `Run`.
  - An invariant (`Transfer.Inv`) gives the theorems about every run.
- **Signal handler.** `Signals` models the handler's signal counter.

The environment of the data phase is a parameter, `Transfer.Environment`:

- whether `malloc` succeeded;
- after how many transfers a signal arrives;
- the bulk transfer, as a function from the transfer's index and the
  requested size to a status and the bytes moved;
- stdin, as a byte sequence;
- whether stdout accepts each write.

A bulk transfer never returns more bytes than requested
(`Transfer.Bounded`).

Where the code does less than its usage text or the reader might expect,
the model follows the code:

- **Transfer errors.** There is one buffer and one synchronous bulk transfer
  with a one-second timeout at a time. Any non-zero status ends the loop, a
  timeout's included (src/cannelloni.c:763-768).
- **Short reads.** A short `fread` of stdin ends the loop, and the bytes it
  read are not transferred (src/cannelloni.c:753-757).
- **Byte limit.** The usage text says that `-n M` stops after M bytes
  (src/cannelloni.c:121-122). The code transfers exactly M bytes only when it
  does not read stdin (`Transfer.LimitMetExactly`). OUT from stdin reads the
  block that exhausts the limit and then breaks out of the loop at
  src/cannelloni.c:758. That block is never transferred, so such a run always
  falls short (`Transfer.OutFromStdinFallsShort`). The model reproduces this
  behaviour as stop reason `FinalBlockDropped`.
- **Endless runs.** Without `-n` the loop streams until a signal or an error
  (`Transfer.UnlimitedRunEndsBySignal`). With `-n` and `-0`, a device that
  keeps completing transfers of 0 bytes never lowers the bytes left, and the
  loop spins until a signal (`Transfer.ZeroLengthRepliesSpin`). OUT from
  stdin would spin the same way for as long as stdin lasts. IN to stdout does
  not spin: writing 0 bytes to stdout fails and ends the loop
  (src/cannelloni.c:775-779).

## Model

| member | source | states |
|---|---|---|
| OptionParsers.ParseOptionC | src/cannelloni.c:166-198 | Returns 0 exactly for the words `[x\|30[o]\|48[o]][i]` (the empty word included) and 1 otherwise. `x` sets useIFCLK, `30`/`48` set use48MhzInternalCLK to false/true, `o` after 30/48 sets redirectToCLKOUT, `i` after a head sets invertIFCLK. Flags the value does not name keep their old value, also when the value is rejected. |
| OptionParsers.IfClockStage | src/cannelloni.c:168-191 | The head the cursor steps over is the longest of `x, 30, 30o, 48, 48o` the value begins with. Acceptance and the `i` flag are read off the characters after it. |
| OptionParsers.ParseOptionZ | src/cannelloni.c:203-236 | Returns 0 exactly for the words `[12\|24\|48][o\|z][i]` and 1 otherwise. 12/24/48 set cpuMHz to MHZ12/MHZ24/MHZ48 (0/1/2). `o` sets enableCLKOUTDriver, `z` clears it, and `i` after a head sets invertCLKOUT. Everything else keeps its old value. |
| OptionParsers.CpuDriverStage | src/cannelloni.c:218-233 | After the longest speed, the driver letter decides enableCLKOUTDriver. The character after it decides invertCLKOUT and whether the value is accepted. |
| Arguments.BlockSizeOption | src/cannelloni.c:390-396 | `-b` is refused when the scan fails, or the value is below 2 or odd. Otherwise the unsigned value is stored into the `int` blockSize, two's complement. |
| Arguments.LimitOption | src/cannelloni.c:398-404 | `-n` is refused when the scan fails, or the value is below 2 or odd. Otherwise it is the 64-bit limit. |
| Arguments.BlockSizeOptions | src/cannelloni.c:390-396 | Every `-b` given is checked as it is read: the result is a block size iff each one passes, and it is then the last one's value, or 16384 when there is none. |
| Arguments.LimitOptions | src/cannelloni.c:398-404 | Every `-n` given is checked as it is read: the result is a limit iff each one passes, and it is then the last one's value, or 0 when there is none. |
| Arguments.CheckLimits | src/cannelloni.c:390-472 | A run is admitted iff every `-b` and every `-n` given passes and the limit (0 when not given) is divisible by the block size converted to `uint64_t`. The block size is the last `-b`, two's complement, or 16384; the limit is the last `-n`, or 0; limitTransfer is set iff `-n` was given. |
| Arguments.EarlierRefusalStands | src/cannelloni.c:391-393 | A refused `-b` ends the program even when a valid `-b` follows it. |
| Arguments.Divides | src/cannelloni.c:470 | The `uint64_t % int` test: for a positive block size it is ordinary divisibility, and no limit (0) always passes. |
| Arguments.NegativeBlockSizeAccepted | src/cannelloni.c:391-395 | `-b 2147483648` passes both checks and leaves blockSize = -2^31. |
| Arguments.LargeBlockSizesTurnNegative | src/cannelloni.c:391-395 | Every accepted `-b` above 2^31 - 2 gives a negative blockSize. |
| Arguments.BoundedBlockSizeOption | src/cannelloni.c:121 | The corrected `-b` check accepts exactly the even values from 2 to 2^31 - 2. |
| Arguments.BoundedBlockSizeOptions | src/cannelloni.c:121 | With the corrected check, the block size exists iff every `-b` passes, and is then the last value given or 16384. |
| Arguments.CheckBoundedLimits | src/cannelloni.c:121-123 | With the corrected `-b`, a run is admitted iff every occurrence of both options passes and the limit is a multiple of the block size. The run gets the last `-b` (or 16384) and the last `-n` (or 0); limitTransfer is set iff `-n` was given. |
| Arguments.BoundedAgreesBelowLimit | src/cannelloni.c:391-395 | The corrected check and the check as written agree on every value up to 2^31 - 2. The corrected check refuses everything above. |
| Arguments.BoundedLimitsAreValid | src/cannelloni.c:470-472 | The corrected checks give an even block size in [2, 2^31 - 2] and an even limit of at least 2 that the block size divides, or no limit. This meets the loop's precondition `Transfer.Valid`. |
| FirmwareConfig.IfconfigByte | src/cannelloni.c:496-502 | Byte 1 reads back as: internal clock iff not useIFCLK, 48 MHz, CLKOUT, inversion and async exactly as the options say, slave FIFO mode. Bit 2 is clear. |
| FirmwareConfig.EndpointByte | src/cannelloni.c:505-520 | Byte 2 reads back as a valid 512-byte bulk endpoint whose DIR bit is the direction. Its buffer count is 2 or 3 when asked for and 4 otherwise (also for any other count). Bits 3..2 are clear. |
| FirmwareConfig.FifoByte | src/cannelloni.c:523-524 | Byte 3 reads back as AUTOIN+ZEROLENIN for IN and AUTOOUT for OUT. WORDWIDE is set iff not `-8`. |
| FirmwareConfig.CpucsByte | src/cannelloni.c:527-540 | Byte 4 reads back as 12, 24 or 48 MHz (an option value other than 12 or 24 selects 48), never as the reserved CLKSPD code 11, with CLKINV and CLKOE as the options say. Bits 7..5 and 0 are clear. |
| FirmwareConfig.PolarityByte | src/cannelloni.c:543-548 | Byte 5 has one bit per polarity option in bits 0..5, and bits 7..6 clear. |
| FirmwareConfig.ConfigImage | src/cannelloni.c:489-548 | The firmware's decoding of the six bytes is exactly the setup the options ask for (`Decode(cfg) == Some(Intended(o))`). Every bit outside the decoded fields is clear. |
| FirmwareConfig.IntendedClockCode | firmware/fx2pipe.c:69-77 | Any six bytes the firmware reads as the intended setup carry CLKSPD 00, 01 or 10 in byte 4 for 12, 24 or 48 MHz, never the reserved 11. |
| FirmwareConfig.DefaultsImage | src/cannelloni.c:276-306 | With the default options the bytes are 12 c3 e0 0d 10 00. |
| FirmwareConfig.FillFirmwareConfig | src/cannelloni.c:489-548 | The encoder block, run on the six-byte array, leaves exactly `ConfigImage(o)` in it. |
| FirmwareConfig.SetInterfaceByte | src/cannelloni.c:496-502 | The OR-ing of byte 1 from zero produces IfconfigByte and leaves the other bytes alone. |
| FirmwareConfig.SetEndpointByte | src/cannelloni.c:505-520 | The assignments to byte 2 produce EndpointByte and leave the other bytes alone. |
| FirmwareConfig.SetFifoByte | src/cannelloni.c:523-524 | The assignments to byte 3 produce FifoByte and leave the other bytes alone. |
| FirmwareConfig.SetCpuByte | src/cannelloni.c:527-540 | The OR-ing of byte 4 from zero produces CpucsByte and leaves the other bytes alone. |
| FirmwareConfig.SetPolarityByte | src/cannelloni.c:543-548 | The OR-ing of byte 5 from zero produces PolarityByte and leaves the other bytes alone. |
| Fx2Pipe.InitSequence | firmware/fx2pipe.c:56-218 | `Initialize` as its ordered list of register writes: the prologue comes first, and only a configuration whose byte 0 is 0x12 or 0x21 adds writes after it. |
| Fx2Pipe.Prologue | firmware/fx2pipe.c:63-115 | The writes before the direction branch: ten registers, each written exactly once. |
| Fx2Pipe.Branch | firmware/fx2pipe.c:117-217 | The branch writes something iff byte 0 is 0x12 or 0x21. On 0x12 it writes only endpoint-6 registers and FIFORESET, otherwise only endpoint-2 registers, FIFORESET and OUTPKTEND. |
| Fx2Pipe.InBranch | firmware/fx2pipe.c:117-166 | The IN branch writes only EP6CFG, FIFORESET, EP6FIFOCFG and EP6AUTOINLENH/L; endpoint 2 is untouched. |
| Fx2Pipe.OutBranch | firmware/fx2pipe.c:167-217 | The OUT branch writes only EP2CFG, FIFORESET, OUTPKTEND and EP2FIFOCFG; endpoint 6 is untouched. |
| Fx2Pipe.InitClocksAndPolarity | firmware/fx2pipe.c:63-108 | CPUCS, IFCONFIG and FIFOPINPOLAR are written once each: from bytes 4, 1 and 5 & 0x3f when byte 0 is 0x12 or 0x21, from 0x12, 0xc3 and 0x00 otherwise. FIFOPINPOLAR never gets its two top bits set. |
| Fx2Pipe.PrologueEndpoints | firmware/fx2pipe.c:111-114 | Before the branch, EP6CFG, EP2CFG, EP6FIFOCFG and EP2FIFOCFG are each written 0x00 exactly once. |
| Fx2Pipe.InitEndpoint6 | firmware/fx2pipe.c:111-160 | EP6CFG and EP6FIFOCFG get 0x00, followed by bytes 2 and 3 only when byte 0 is 0x12. EP6AUTOINLENH/L get 0x02/0x00 only then. |
| Fx2Pipe.InitEndpoint2 | firmware/fx2pipe.c:111-210 | EP2CFG and EP2FIFOCFG get 0x00, followed by bytes 2 and 3 only when byte 0 is 0x21. |
| Fx2Pipe.Endpoint6Final | firmware/fx2pipe.c:111-160 | After Initialize, EP6CFG and EP6FIFOCFG hold bytes 2 and 3 on an IN configuration and 0 otherwise. |
| Fx2Pipe.Endpoint2Final | firmware/fx2pipe.c:111-210 | After Initialize, EP2CFG and EP2FIFOCFG hold bytes 2 and 3 on an OUT configuration and 0 otherwise. |
| Fx2Pipe.InBranchConfig | firmware/fx2pipe.c:128-150 | The IN branch writes EP6CFG once with byte 2 and EP6FIFOCFG once with byte 3. |
| Fx2Pipe.OutBranchConfig | firmware/fx2pipe.c:178-209 | The OUT branch writes EP2CFG once with byte 2 and EP2FIFOCFG once with byte 3. |
| Fx2Pipe.InitFifoReset | firmware/fx2pipe.c:117-188 | FIFORESET gets 0x80, 0x82, 0x84, 0x86, 0x88, 0x00 in that order when the configuration is valid, and nothing otherwise. |
| Fx2Pipe.PrimeValues | firmware/fx2pipe.c:191-197 | The fall-through switch primes 4 times for BUF = 00, 3 times for 11 and 2 times otherwise, always with 0x82. |
| Fx2Pipe.InitPrimes | firmware/fx2pipe.c:167-197 | On an OUT configuration, OUTPKTEND gets one 0x82 per buffer that BUF selects (2 for the reserved 01). Any other configuration never writes it. |
| EndToEnd.HostConfigAccepted | firmware/fx2pipe.c:65-107 | The firmware accepts every configuration the host encodes. CPUCS, IFCONFIG and FIFOPINPOLAR end up with exactly the clock, interface and pin setup the options ask for. |
| EndToEnd.HostConfigEndpoint | firmware/fx2pipe.c:117-210 | The host's direction selects the endpoint. IN leaves EP6 configured with the intended endpoint and FIFO fields and EP2 at 0; OUT does the reverse. |
| EndToEnd.HostConfigPrimes | firmware/fx2pipe.c:191-197 | An OUT run gets as many OUTPKTEND primes as `-2`/`-3`/default buffers (2, 3 or 4). An IN run gets none. |
| Signals.OnSignal | src/cannelloni.c:148-158 | One signal increments the counter. At 5 or more the process exits; below that doTerminate is set. |
| Signals.AfterSignals | src/cannelloni.c:146-158 | After any number of signals the counter is at most 5, and the process has exited iff it is exactly 5. |
| Signals.SignalsCounted | src/cannelloni.c:146-158 | After n signals the counter is min(n, 5). doTerminate is set iff n ≥ 1, and the process has exited iff n ≥ 5. |
| Signals.SignalHandler.constructor | src/cannelloni.c:146-147 | The counter and doTerminate start at 0. |
| Signals.SignalHandler.Handle | src/cannelloni.c:148-158 | The handler updates the globals in place exactly as OnSignal says. |
| Transfer.Start | src/cannelloni.c:727-742 | The loop is entered iff the buffer was allocated and no signal came first. |
| Transfer.Request | src/cannelloni.c:744-748 | A request is a whole block, or what is left of the limit when that is no more than a block. It never exceeds the block size. |
| Transfer.Step | src/cannelloni.c:742-785 | One iteration keeps the loop's state well-formed and records at most one more transfer. Any iteration that records none ends the loop. |
| Transfer.TransferBlock | src/cannelloni.c:762-784 | The bulk transfer and what follows it keep the state well-formed and record at most one transfer; an iteration that records none ends the loop. |
| Transfer.Advance | src/cannelloni.c:770-771 | A successful transfer records one request, adds at most the requested number of bytes to the bus, and keeps left + transferred unchanged modulo 2^64. |
| Transfer.Chunk | src/cannelloni.c:750-763 | The bytes on the bus are exactly as many as the device moved: its data for IN, zeros with `-0`, the next bytes of stdin otherwise. |
| Transfer.Deliver | src/cannelloni.c:770-784 | After a successful transfer only doTerminate, the stop reason and stdout change. The transfer that completes the signalled count ends the loop. |
| Transfer.RunFrom | src/cannelloni.c:742-785 | Iterating the body ends with doTerminate set, from any well-formed state. |
| Transfer.Run | src/cannelloni.c:727-785 | The whole data phase ends with doTerminate set, after at most `signalAfter` transfers, without reading past the end of stdin. |
| Transfer.ReadBlock | src/cannelloni.c:753 | A successful `fread` leaves the next `count` bytes of stdin in the buffer and the bytes after them as they were. |
| Transfer.ZeroFill | src/cannelloni.c:759 | `memset` leaves `count` zeros in the buffer and the bytes after them as they were. |
| Transfer.Receive | src/cannelloni.c:763 | The device's IN data lands at the start of the buffer; the bytes after it are as they were. |
| Transfer.LoopBody | src/cannelloni.c:744-784 | The loop body as written, on the array buffer, computes exactly one `Step`. |
| Transfer.TransferLoop | src/cannelloni.c:727-785 | The loop as written computes exactly `Run`. |
| Transfer.RunInv | src/cannelloni.c:742-785 | Every run ends in a state satisfying the loop invariant: accounting, request sizes, stop reasons, data path, exactness. |
| Transfer.StopReasons | src/cannelloni.c:742-785 | A run does not start iff there is no buffer or an early signal, and then transfers nothing. Every recorded transfer returned status 0. The status is non-zero iff the stop is a failed transfer, and it is then the device's status for the next request. A read failure means a request of 0 bytes or fewer bytes left on stdin than requested; a write failure means the last reply was empty or stdout refused that write; a limit stop means the last request was everything that was left. A limit stop happens only with a limit and not from stdin; a read failure only from stdin; a write failure only to stdout. |
| Transfer.Counters | src/cannelloni.c:770-771 | Both counters move by the bytes actually transferred. With a limit L, transferred + left = L. Without one, transferred is the byte count modulo 2^64, and no more than was requested crosses the bus. |
| Transfer.RequestSizes | src/cannelloni.c:744-748 | Every request is 1 to blockSize bytes, all but the last are whole blocks, and without a limit all of them are. |
| Transfer.DataPath | src/cannelloni.c:750-779 | IN puts the device's bytes on the bus and, unless a write failed, all of them on stdout. `-0` OUT sends zeros. OUT from stdin never reads past the end and, with a device that takes everything, sends a prefix of stdin. Other modes touch neither stream. |
| Transfer.OutFromStdinFallsShort | src/cannelloni.c:745-758 | OUT from stdin with a limit never stops for the limit and always transfers less than the limit. |
| Transfer.LimitMetExactly | src/cannelloni.c:737-785 | Assume the device and stdout never fail, no signal comes first and the limit is a multiple of the block. Then a run that does not read stdin transfers exactly the limit, in whole blocks, and stops for the limit. |
| Transfer.UnlimitedRunEndsBySignal | src/cannelloni.c:742-785 | Without a limit, a run that does not read stdin, on a device that never fails (and for IN to stdout, moves every byte to a stdout that takes every write), stops only for the signal, after `signalAfter` transfers. |
| Transfer.ZeroLengthRepliesSpin | src/cannelloni.c:744-785 | With `-0` and a limit of more than one block, a device that completes every transfer with 0 bytes leaves the bytes left at the limit: the run stops only for the signal, with nothing transferred. |

## Left out

- libusb is left out: device discovery, firmware upload, interface claim, alternate setting and release. So is the `ezusb_write` of the configuration bytes. The bulk transfer is the `device` parameter of `Transfer.Environment`.
- `getopt`, `print_usage`, logging and verbosity are left out. Options arrive already split. `Arguments.CheckLimits` takes the scans of every `-b` and every `-n` in the order given. How `-b` and `-n` interleave is not modelled: it decides which message is printed, not whether the run is refused.
- `sscanf` is left out. A scan is `None` when it converts nothing, and otherwise the unsigned value it stored.
- `getTime`, the elapsed time and the MiB/s figure are left out. They are floating point.
- Real `fread`/`fwrite` are left out. stdin is a byte sequence and stdout a per-write success flag. A read or write of zero bytes fails, as an item of size 0 is never transferred.
- Transfer.RunFrom: every modelled run ends, because a signal arrives after `signalAfter` transfers. The program has runs that never end without a signal: without `-n` it streams for as long as the device and the streams work, and with `-n` and `-0` (or OUT from a stdin that never runs out) a device that keeps completing transfers of 0 bytes makes it spin. The two lemmas named under Endless runs state what the model says about these runs.
- Asynchronous signal delivery and installing the handlers are left out. A signal is seen only between two iterations, after `signalAfter` transfers, and the counter logic is modelled separately in `Signals`.
- Transfer.TransferLoop: a signal that arrives during an iteration is folded into the check after it. In the program, a signal during the `fread` of OUT from stdin makes src/cannelloni.c:758 break off and drop the block just read; the model transfers that block and then stops with `Signalled`. So in the model, but not in the program, `FinalBlockDropped` happens only with a limit. The `exit(-1)` of the fifth signal and the `doTerminate` check before the device is opened (src/cannelloni.c:551) are not part of the loop model.
- Transfer.TransferLoop: the block size is a natural number. A negative `int` block size, which only the `-b` bug can produce, is converted to a `size_t` near 2^64 where `size_t` is 64 bits wide, and `malloc` of that fails: that is `bufferAllocated = false`. With a 32-bit `size_t`, `-b 2147483648` asks for 2^31 bytes, which may succeed; the model does not cover that platform.
- The firmware's SYNCDELAY padding, the idle `for(;;)` loop and the electrical effect of the register writes are left out. `Initialize` is the ordered list of writes it performs.
- The statistics printed after the loop, and the release of the device, are left out. So is the process exit code, apart from the loop's last status.

## Findings

| source | as written | input that shows it | evidently intended | confidence | as-written member | corrected member |
|---|---|---|---|---|---|---|
| src/cannelloni.c:391-395 | `-b` only refuses values below 2 and odd values, then stores the unsigned value into the signed `int blockSize` | `-b 2147483648` (no `-n`): accepted, blockSize becomes -2^31, the divisibility check passes because the limit is 0, and, with a 64-bit `size_t`, `malloc` of the converted size (2^64 - 2^31) fails, so nothing is transferred | refuse block sizes above 2^31 - 2, as the usage text at line 121 says | not executed; high that the stored value is negative on two's-complement targets | Arguments.NegativeBlockSizeAccepted | Arguments.BoundedLimitsAreValid |

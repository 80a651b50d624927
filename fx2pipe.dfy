/**
 * The pipe firmware's `Initialize` (firmware/fx2pipe.c): it reads the six
 * configuration bytes the host left at 0x1003 and programs the FX2 with a
 * fixed, ordered sequence of register writes.  `InitSequence` is that
 * sequence as a value, and the lemmas below state what it leaves in each
 * register.
 */
module Fx2Pipe {
  import opened Wrappers
  import opened Fx2Registers

  /** The configuration counts as present iff its first byte is one of the two direction markers. */
  predicate ConfigValid(cfg: seq<bv8>)
    requires |cfg| == 6
  {
    cfg[0] == DirectionIn || cfg[0] == DirectionOut
  }

  /** The six FIFORESET writes: NAK the host, reset endpoints 2, 4, 6 and 8, resume. */
  const FifoResetValues: seq<bv8> := [0x80, 0x82, 0x84, 0x86, 0x88, 0x00]

  /** Writes of one register, one per value, in order. */
  function WritesOf(reg: Reg, values: seq<bv8>): (w: seq<RegWrite>)
    ensures |w| == |values|
    ensures forall i :: 0 <= i < |w| ==> w[i] == RegWrite(reg, values[i])
  {
    if values == [] then [] else [RegWrite(reg, values[0])] + WritesOf(reg, values[1..])
  }

  /**
   * Writes done before the direction branch, whatever the configuration:
   * ten registers, each written once.
   */
  function Prologue(cfg: seq<bv8>): (w: seq<RegWrite>)
    requires |cfg| == 6
    ensures |w| == 10
    ensures forall i, j :: 0 <= i < j < |w| ==> w[i].reg != w[j].reg
  {
    var ok := ConfigValid(cfg);
    [ RegWrite(CPUCS, if ok then cfg[4] else 0x12),
      RegWrite(IFCONFIG, if ok then cfg[1] else 0xc3),
      RegWrite(REVCTL, 0x03),
      RegWrite(PORTACFG, 0x00),
      RegWrite(FIFOPINPOLAR, if ok then cfg[5] & 0x3f else 0x00),
      RegWrite(EP6CFG, 0x00),
      RegWrite(EP2CFG, 0x00),
      RegWrite(EP6FIFOCFG, 0x00),
      RegWrite(EP2FIFOCFG, 0x00),
      RegWrite(OEA, 0x00) ]
  }

  /** The registers the IN branch writes. */
  const InRegs: set<Reg> := {EP6CFG, FIFORESET, EP6FIFOCFG, EP6AUTOINLENH, EP6AUTOINLENL}
  /** The registers the OUT branch writes. */
  const OutRegs: set<Reg> := {EP2CFG, FIFORESET, OUTPKTEND, EP2FIFOCFG}

  /** Endpoint 6 set up for IN transfers; nothing of endpoint 2 is touched. */
  function InBranch(cfg: seq<bv8>): (w: seq<RegWrite>)
    requires |cfg| == 6
    ensures forall i :: 0 <= i < |w| ==> w[i].reg in InRegs
  {
    [RegWrite(EP6CFG, cfg[2])]
    + WritesOf(FIFORESET, FifoResetValues)
    + [RegWrite(EP6FIFOCFG, cfg[3]), RegWrite(EP6AUTOINLENH, 0x02), RegWrite(EP6AUTOINLENL, 0x00)]
  }

  /**
   * OUTPKTEND priming: two writes, then a switch on the BUF bits that falls
   * through, adding two more for quad buffering and one more for triple.
   * That is one prime of 0x82 per buffer, and two for the reserved BUF code.
   */
  function PrimeValues(epcfg: bv8): (vs: seq<bv8>)
    ensures |vs| == if BufferCount(epcfg) == 0 then 2 else BufferCount(epcfg)
    ensures forall v :: v in vs ==> v == 0x82
  {
    [0x82, 0x82]
    + (if epcfg & 0x03 == 0x00 then [0x82, 0x82] else if epcfg & 0x03 == 0x03 then [0x82] else [])
  }

  /** Endpoint 2 set up for OUT transfers, with its buffers armed; nothing of endpoint 6 is touched. */
  function OutBranch(cfg: seq<bv8>): (w: seq<RegWrite>)
    requires |cfg| == 6
    ensures forall i :: 0 <= i < |w| ==> w[i].reg in OutRegs
  {
    [RegWrite(EP2CFG, cfg[2])]
    + WritesOf(FIFORESET, FifoResetValues)
    + WritesOf(OUTPKTEND, PrimeValues(cfg[2]))
    + [RegWrite(EP2FIFOCFG, cfg[3])]
  }

  /** The direction branch: endpoint 6 for an IN marker, endpoint 2 for an OUT marker, nothing otherwise. */
  function Branch(cfg: seq<bv8>): (w: seq<RegWrite>)
    requires |cfg| == 6
    ensures ConfigValid(cfg) <==> w != []
    ensures cfg[0] == DirectionIn ==> forall i :: 0 <= i < |w| ==> w[i].reg in InRegs
    ensures cfg[0] != DirectionIn ==> forall i :: 0 <= i < |w| ==> w[i].reg in OutRegs
  {
    if cfg[0] == DirectionIn then InBranch(cfg)
    else if cfg[0] == DirectionOut then OutBranch(cfg)
    else []
  }

  /**
   * Every register write `Initialize` performs, in program order: the
   * prologue first; only a valid configuration adds writes after it.
   */
  function InitSequence(cfg: seq<bv8>): (w: seq<RegWrite>)
    requires |cfg| == 6
    ensures |w| >= 10 && w[..10] == Prologue(cfg)
    ensures ConfigValid(cfg) <==> |w| > 10
  {
    Prologue(cfg) + Branch(cfg)
  }

  /** The values a write log assigns to `reg`, in the order they are written. */
  function Written(w: seq<RegWrite>, reg: Reg): (vs: seq<bv8>)
    ensures |vs| <= |w|
  {
    if w == [] then []
    else (if w[0].reg == reg then [w[0].value] else []) + Written(w[1..], reg)
  }

  /** The value `reg` holds after the log, if the log writes it at all. */
  function LastWritten(w: seq<RegWrite>, reg: Reg): Option<bv8>
  {
    var vs := Written(w, reg);
    if vs == [] then None else Some(vs[|vs| - 1])
  }

  lemma {:induction false} WrittenAppend(a: seq<RegWrite>, b: seq<RegWrite>, reg: Reg)
    ensures Written(a + b, reg) == Written(a, reg) + Written(b, reg)
  {
    if a == [] {
      assert a + b == b;
    } else {
      var head := if a[0].reg == reg then [a[0].value] else [];
      calc {
        Written(a + b, reg);
        { assert (a + b)[0] == a[0]; assert (a + b)[1..] == a[1..] + b; }
        head + Written(a[1..] + b, reg);
        { WrittenAppend(a[1..], b, reg); }
        head + (Written(a[1..], reg) + Written(b, reg));
        (head + Written(a[1..], reg)) + Written(b, reg);
      }
    }
  }

  lemma {:induction false} WrittenAbsent(w: seq<RegWrite>, reg: Reg)
    requires forall i :: 0 <= i < |w| ==> w[i].reg != reg
    ensures Written(w, reg) == []
  {
    if w != [] {
      WrittenAbsent(w[1..], reg);
    }
  }

  lemma {:induction false} WrittenOnce(w: seq<RegWrite>, reg: Reg, k: nat)
    requires k < |w| && w[k].reg == reg
    requires forall i :: 0 <= i < |w| && i != k ==> w[i].reg != reg
    ensures Written(w, reg) == [w[k].value]
  {
    if k == 0 {
      WrittenAbsent(w[1..], reg);
    } else {
      WrittenOnce(w[1..], reg, k - 1);
    }
  }

  lemma {:induction false} WrittenWritesOf(r: Reg, values: seq<bv8>, reg: Reg)
    ensures Written(WritesOf(r, values), reg) == if r == reg then values else []
  {
    if values != [] {
      var w := WritesOf(r, values);
      assert w[1..] == WritesOf(r, values[1..]);
      WrittenWritesOf(r, values[1..], reg);
    }
  }

  /** Written on a sequence of one write. */
  lemma WrittenSingle(x: RegWrite, reg: Reg)
    ensures Written([x], reg) == if x.reg == reg then [x.value] else []
  {
    assert [x][1..] == [];
  }

  /** A first part that does not write `reg` leaves the writes of what follows. */
  lemma WrittenSkip(a: seq<RegWrite>, b: seq<RegWrite>, reg: Reg)
    requires Written(a, reg) == []
    ensures Written(a + b, reg) == Written(b, reg)
  {
    WrittenAppend(a, b, reg);
    assert [] + Written(b, reg) == Written(b, reg);
  }

  /** A last part that does not write `reg` leaves the writes of what precedes it. */
  lemma WrittenDrop(a: seq<RegWrite>, b: seq<RegWrite>, reg: Reg)
    requires Written(b, reg) == []
    ensures Written(a + b, reg) == Written(a, reg)
  {
    WrittenAppend(a, b, reg);
    assert Written(a, reg) + [] == Written(a, reg);
  }

  /** A register that neither branch writes gets exactly the prologue's writes. */
  lemma InitOutsideBranch(cfg: seq<bv8>, reg: Reg)
    requires |cfg| == 6
    requires reg !in InRegs && reg !in OutRegs
    ensures Written(InitSequence(cfg), reg) == Written(Prologue(cfg), reg)
  {
    WrittenAppend(Prologue(cfg), Branch(cfg), reg);
    if cfg[0] == DirectionIn {
      WrittenAbsent(InBranch(cfg), reg);
    } else if cfg[0] == DirectionOut {
      WrittenAbsent(OutBranch(cfg), reg);
    }
  }

  /** A register that only the IN branch writes: the prologue's writes, then the IN branch's. */
  lemma InitInOnly(cfg: seq<bv8>, reg: Reg)
    requires |cfg| == 6
    requires reg in InRegs && reg !in OutRegs
    ensures Written(InitSequence(cfg), reg) ==
      Written(Prologue(cfg), reg) + (if cfg[0] == DirectionIn then Written(InBranch(cfg), reg) else [])
  {
    WrittenAppend(Prologue(cfg), Branch(cfg), reg);
    if cfg[0] == DirectionOut {
      WrittenAbsent(OutBranch(cfg), reg);
    }
  }

  /** A register that only the OUT branch writes: the prologue's writes, then the OUT branch's. */
  lemma InitOutOnly(cfg: seq<bv8>, reg: Reg)
    requires |cfg| == 6
    requires reg in OutRegs && reg !in InRegs
    ensures Written(InitSequence(cfg), reg) ==
      Written(Prologue(cfg), reg) + (if cfg[0] == DirectionOut then Written(OutBranch(cfg), reg) else [])
  {
    WrittenAppend(Prologue(cfg), Branch(cfg), reg);
    if cfg[0] == DirectionIn {
      WrittenAbsent(InBranch(cfg), reg);
    }
  }

  lemma PrologueClocks(cfg: seq<bv8>)
    requires |cfg| == 6
    ensures Written(Prologue(cfg), CPUCS) == [if ConfigValid(cfg) then cfg[4] else 0x12]
    ensures Written(Prologue(cfg), IFCONFIG) == [if ConfigValid(cfg) then cfg[1] else 0xc3]
    ensures Written(Prologue(cfg), FIFOPINPOLAR) == [if ConfigValid(cfg) then cfg[5] & 0x3f else 0x00]
  {
    var p := Prologue(cfg);
    WrittenOnce(p, CPUCS, 0);
    WrittenOnce(p, IFCONFIG, 1);
    WrittenOnce(p, FIFOPINPOLAR, 4);
  }

  lemma PrologueEndpoints(cfg: seq<bv8>)
    requires |cfg| == 6
    ensures Written(Prologue(cfg), EP6CFG) == [0x00]
    ensures Written(Prologue(cfg), EP2CFG) == [0x00]
    ensures Written(Prologue(cfg), EP6FIFOCFG) == [0x00]
    ensures Written(Prologue(cfg), EP2FIFOCFG) == [0x00]
  {
    var p := Prologue(cfg);
    WrittenOnce(p, EP6CFG, 5);
    WrittenOnce(p, EP2CFG, 6);
    WrittenOnce(p, EP6FIFOCFG, 7);
    WrittenOnce(p, EP2FIFOCFG, 8);
  }

  lemma PrologueAbsent(cfg: seq<bv8>)
    requires |cfg| == 6
    ensures Written(Prologue(cfg), EP6AUTOINLENH) == []
    ensures Written(Prologue(cfg), EP6AUTOINLENL) == []
    ensures Written(Prologue(cfg), FIFORESET) == []
    ensures Written(Prologue(cfg), OUTPKTEND) == []
  {
    var p := Prologue(cfg);
    WrittenAbsent(p, EP6AUTOINLENH);
    WrittenAbsent(p, EP6AUTOINLENL);
    WrittenAbsent(p, FIFORESET);
    WrittenAbsent(p, OUTPKTEND);
  }

  lemma InBranchConfig(cfg: seq<bv8>)
    requires |cfg| == 6
    ensures Written(InBranch(cfg), EP6CFG) == [cfg[2]]
    ensures Written(InBranch(cfg), EP6FIFOCFG) == [cfg[3]]
  {
    InBranchEndpoint(cfg);
    InBranchFifo(cfg);
  }

  /** EP6CFG is written once in the IN branch, by its first write. */
  lemma InBranchEndpoint(cfg: seq<bv8>)
    requires |cfg| == 6
    ensures Written(InBranch(cfg), EP6CFG) == [cfg[2]]
  {
    var x := RegWrite(EP6CFG, cfg[2]);
    var resets := WritesOf(FIFORESET, FifoResetValues);
    var tail := [RegWrite(EP6FIFOCFG, cfg[3]), RegWrite(EP6AUTOINLENH, 0x02), RegWrite(EP6AUTOINLENL, 0x00)];
    WrittenAbsent(tail, EP6CFG);
    WrittenDrop([x] + resets, tail, EP6CFG);
    WrittenWritesOf(FIFORESET, FifoResetValues, EP6CFG);
    WrittenDrop([x], resets, EP6CFG);
    WrittenSingle(x, EP6CFG);
  }

  /** EP6FIFOCFG is written once in the IN branch, right after the FIFO resets. */
  lemma InBranchFifo(cfg: seq<bv8>)
    requires |cfg| == 6
    ensures Written(InBranch(cfg), EP6FIFOCFG) == [cfg[3]]
  {
    var front := [RegWrite(EP6CFG, cfg[2])] + WritesOf(FIFORESET, FifoResetValues);
    var tail := [RegWrite(EP6FIFOCFG, cfg[3]), RegWrite(EP6AUTOINLENH, 0x02), RegWrite(EP6AUTOINLENL, 0x00)];
    InBranchFront(cfg, EP6FIFOCFG);
    InBranchTail(cfg);
    WrittenSkip(front, tail, EP6FIFOCFG);
  }

  /** The last three writes of the IN branch set EP6FIFOCFG once. */
  lemma InBranchTail(cfg: seq<bv8>)
    requires |cfg| == 6
    ensures Written([RegWrite(EP6FIFOCFG, cfg[3]), RegWrite(EP6AUTOINLENH, 0x02), RegWrite(EP6AUTOINLENL, 0x00)], EP6FIFOCFG)
      == [cfg[3]]
    ensures Written([RegWrite(EP6FIFOCFG, cfg[3]), RegWrite(EP6AUTOINLENH, 0x02), RegWrite(EP6AUTOINLENL, 0x00)], EP6AUTOINLENH)
      == [0x02]
    ensures Written([RegWrite(EP6FIFOCFG, cfg[3]), RegWrite(EP6AUTOINLENH, 0x02), RegWrite(EP6AUTOINLENL, 0x00)], EP6AUTOINLENL)
      == [0x00]
  {
    var tail := [RegWrite(EP6FIFOCFG, cfg[3]), RegWrite(EP6AUTOINLENH, 0x02), RegWrite(EP6AUTOINLENL, 0x00)];
    WrittenOnce(tail, EP6FIFOCFG, 0);
    WrittenOnce(tail, EP6AUTOINLENH, 1);
    WrittenOnce(tail, EP6AUTOINLENL, 2);
  }

  /** The IN branch's endpoint setup and FIFO resets write no register but EP6CFG and FIFORESET. */
  lemma InBranchFront(cfg: seq<bv8>, reg: Reg)
    requires |cfg| == 6 && reg != EP6CFG && reg != FIFORESET
    ensures Written([RegWrite(EP6CFG, cfg[2])] + WritesOf(FIFORESET, FifoResetValues), reg) == []
  {
    var x := RegWrite(EP6CFG, cfg[2]);
    WrittenSingle(x, reg);
    WrittenWritesOf(FIFORESET, FifoResetValues, reg);
    WrittenSkip([x], WritesOf(FIFORESET, FifoResetValues), reg);
  }

  lemma InBranchAutoLength(cfg: seq<bv8>)
    requires |cfg| == 6
    ensures Written(InBranch(cfg), EP6AUTOINLENH) == [0x02]
    ensures Written(InBranch(cfg), EP6AUTOINLENL) == [0x00]
  {
    var front := [RegWrite(EP6CFG, cfg[2])] + WritesOf(FIFORESET, FifoResetValues);
    var tail := [RegWrite(EP6FIFOCFG, cfg[3]), RegWrite(EP6AUTOINLENH, 0x02), RegWrite(EP6AUTOINLENL, 0x00)];
    InBranchTail(cfg);
    InBranchFront(cfg, EP6AUTOINLENH);
    InBranchFront(cfg, EP6AUTOINLENL);
    WrittenSkip(front, tail, EP6AUTOINLENH);
    WrittenSkip(front, tail, EP6AUTOINLENL);
  }

  lemma OutBranchConfig(cfg: seq<bv8>)
    requires |cfg| == 6
    ensures Written(OutBranch(cfg), EP2CFG) == [cfg[2]]
    ensures Written(OutBranch(cfg), EP2FIFOCFG) == [cfg[3]]
  {
    OutBranchEndpoint(cfg);
    OutBranchFifo(cfg);
  }

  /** EP2CFG is written once in the OUT branch, by its first write. */
  lemma OutBranchEndpoint(cfg: seq<bv8>)
    requires |cfg| == 6
    ensures Written(OutBranch(cfg), EP2CFG) == [cfg[2]]
  {
    var x := RegWrite(EP2CFG, cfg[2]);
    var resets := WritesOf(FIFORESET, FifoResetValues);
    var primes := WritesOf(OUTPKTEND, PrimeValues(cfg[2]));
    var last := [RegWrite(EP2FIFOCFG, cfg[3])];
    WrittenSingle(last[0], EP2CFG);
    WrittenDrop([x] + resets + primes, last, EP2CFG);
    WrittenWritesOf(OUTPKTEND, PrimeValues(cfg[2]), EP2CFG);
    WrittenDrop([x] + resets, primes, EP2CFG);
    WrittenWritesOf(FIFORESET, FifoResetValues, EP2CFG);
    WrittenDrop([x], resets, EP2CFG);
    WrittenSingle(x, EP2CFG);
  }

  /** EP2FIFOCFG is written once in the OUT branch, by its last write. */
  lemma OutBranchFifo(cfg: seq<bv8>)
    requires |cfg| == 6
    ensures Written(OutBranch(cfg), EP2FIFOCFG) == [cfg[3]]
  {
    var x := RegWrite(EP2CFG, cfg[2]);
    var resets := WritesOf(FIFORESET, FifoResetValues);
    var primes := WritesOf(OUTPKTEND, PrimeValues(cfg[2]));
    var y := RegWrite(EP2FIFOCFG, cfg[3]);
    WrittenSingle(x, EP2FIFOCFG);
    WrittenWritesOf(FIFORESET, FifoResetValues, EP2FIFOCFG);
    WrittenSkip([x], resets, EP2FIFOCFG);
    WrittenWritesOf(OUTPKTEND, PrimeValues(cfg[2]), EP2FIFOCFG);
    WrittenSkip([x] + resets, primes, EP2FIFOCFG);
    WrittenSkip([x] + resets + primes, [y], EP2FIFOCFG);
    WrittenSingle(y, EP2FIFOCFG);
  }

  /** Writes of `reg` by a segment whose first and last parts do not write it. */
  lemma WrittenMiddle(head: seq<RegWrite>, middle: seq<RegWrite>, tail: seq<RegWrite>, reg: Reg)
    requires forall i :: 0 <= i < |head| ==> head[i].reg != reg
    requires forall i :: 0 <= i < |tail| ==> tail[i].reg != reg
    ensures Written(head + middle + tail, reg) == Written(middle, reg)
  {
    WrittenAppend(head + middle, tail, reg);
    WrittenAppend(head, middle, reg);
    WrittenAbsent(head, reg);
    WrittenAbsent(tail, reg);
  }

  lemma InBranchFifoReset(cfg: seq<bv8>)
    requires |cfg| == 6
    ensures Written(InBranch(cfg), FIFORESET) == FifoResetValues
  {
    WrittenMiddle([RegWrite(EP6CFG, cfg[2])], WritesOf(FIFORESET, FifoResetValues),
      [RegWrite(EP6FIFOCFG, cfg[3]), RegWrite(EP6AUTOINLENH, 0x02), RegWrite(EP6AUTOINLENL, 0x00)], FIFORESET);
    WrittenWritesOf(FIFORESET, FifoResetValues, FIFORESET);
  }

  lemma OutBranchFifoReset(cfg: seq<bv8>)
    requires |cfg| == 6
    ensures Written(OutBranch(cfg), FIFORESET) == FifoResetValues
  {
    var primes := WritesOf(OUTPKTEND, PrimeValues(cfg[2]));
    var last := [RegWrite(EP2FIFOCFG, cfg[3])];
    WrittenMiddle([RegWrite(EP2CFG, cfg[2])], WritesOf(FIFORESET, FifoResetValues), primes + last, FIFORESET);
    assert OutBranch(cfg) == [RegWrite(EP2CFG, cfg[2])] + WritesOf(FIFORESET, FifoResetValues) + (primes + last);
    WrittenWritesOf(FIFORESET, FifoResetValues, FIFORESET);
  }

  lemma OutBranchPrimes(cfg: seq<bv8>)
    requires |cfg| == 6
    ensures Written(OutBranch(cfg), OUTPKTEND) == PrimeValues(cfg[2])
  {
    var front := [RegWrite(EP2CFG, cfg[2])] + WritesOf(FIFORESET, FifoResetValues);
    WrittenMiddle(front, WritesOf(OUTPKTEND, PrimeValues(cfg[2])), [RegWrite(EP2FIFOCFG, cfg[3])], OUTPKTEND);
    WrittenWritesOf(OUTPKTEND, PrimeValues(cfg[2]), OUTPKTEND);
  }

  /**
   * Clock, interface configuration and FIFO pin polarity are each written
   * exactly once: from the configuration when it is valid, from the
   * firmware's defaults otherwise.  The polarity register never gets its two
   * top bits set.
   */
  lemma InitClocksAndPolarity(cfg: seq<bv8>)
    requires |cfg| == 6
    ensures Written(InitSequence(cfg), CPUCS) == [if ConfigValid(cfg) then cfg[4] else 0x12]
    ensures Written(InitSequence(cfg), IFCONFIG) == [if ConfigValid(cfg) then cfg[1] else 0xc3]
    ensures Written(InitSequence(cfg), FIFOPINPOLAR) == [if ConfigValid(cfg) then cfg[5] & 0x3f else 0x00]
    ensures LastWritten(InitSequence(cfg), FIFOPINPOLAR).Some?
    ensures LastWritten(InitSequence(cfg), FIFOPINPOLAR).value & 0xc0 == 0
  {
    InitOutsideBranch(cfg, CPUCS);
    InitOutsideBranch(cfg, IFCONFIG);
    InitOutsideBranch(cfg, FIFOPINPOLAR);
    PrologueClocks(cfg);
  }

  /**
   * Endpoint 6 is first reset to zero and then configured from bytes 2 and 3,
   * with a 512-byte AUTOIN length, exactly when the marker says IN.
   */
  lemma InitEndpoint6(cfg: seq<bv8>)
    requires |cfg| == 6
    ensures Written(InitSequence(cfg), EP6CFG) == [0x00] + (if cfg[0] == DirectionIn then [cfg[2]] else [])
    ensures Written(InitSequence(cfg), EP6FIFOCFG) == [0x00] + (if cfg[0] == DirectionIn then [cfg[3]] else [])
    ensures Written(InitSequence(cfg), EP6AUTOINLENH) == (if cfg[0] == DirectionIn then [0x02] else [])
    ensures Written(InitSequence(cfg), EP6AUTOINLENL) == (if cfg[0] == DirectionIn then [0x00] else [])
  {
    InitEndpoint6Config(cfg);
    InitAutoInLength(cfg);
  }

  lemma InitEndpoint6Config(cfg: seq<bv8>)
    requires |cfg| == 6
    ensures Written(InitSequence(cfg), EP6CFG) == [0x00] + (if cfg[0] == DirectionIn then [cfg[2]] else [])
    ensures Written(InitSequence(cfg), EP6FIFOCFG) == [0x00] + (if cfg[0] == DirectionIn then [cfg[3]] else [])
  {
    InitInOnly(cfg, EP6CFG);
    InitInOnly(cfg, EP6FIFOCFG);
    PrologueEndpoints(cfg);
    InBranchConfig(cfg);
  }

  lemma InitAutoInLength(cfg: seq<bv8>)
    requires |cfg| == 6
    ensures Written(InitSequence(cfg), EP6AUTOINLENH) == (if cfg[0] == DirectionIn then [0x02] else [])
    ensures Written(InitSequence(cfg), EP6AUTOINLENL) == (if cfg[0] == DirectionIn then [0x00] else [])
  {
    InitInOnly(cfg, EP6AUTOINLENH);
    InitInOnly(cfg, EP6AUTOINLENL);
    PrologueAbsent(cfg);
    InBranchAutoLength(cfg);
  }

  /** After `Initialize`, endpoint 6 holds the configured values on an IN run and stays reset otherwise. */
  lemma Endpoint6Final(cfg: seq<bv8>)
    requires |cfg| == 6
    ensures LastWritten(InitSequence(cfg), EP6CFG) == Some(if cfg[0] == DirectionIn then cfg[2] else 0x00)
    ensures LastWritten(InitSequence(cfg), EP6FIFOCFG) == Some(if cfg[0] == DirectionIn then cfg[3] else 0x00)
  {
    InitEndpoint6Config(cfg);
  }

  /** After `Initialize`, endpoint 2 holds the configured values on an OUT run and stays reset otherwise. */
  lemma Endpoint2Final(cfg: seq<bv8>)
    requires |cfg| == 6
    ensures LastWritten(InitSequence(cfg), EP2CFG) == Some(if cfg[0] == DirectionOut then cfg[2] else 0x00)
    ensures LastWritten(InitSequence(cfg), EP2FIFOCFG) == Some(if cfg[0] == DirectionOut then cfg[3] else 0x00)
  {
    InitEndpoint2(cfg);
  }

  /**
   * Endpoint 2 is first reset to zero and then configured from bytes 2 and 3
   * exactly when the marker says OUT.
   */
  lemma InitEndpoint2(cfg: seq<bv8>)
    requires |cfg| == 6
    ensures Written(InitSequence(cfg), EP2CFG) == [0x00] + (if cfg[0] == DirectionOut then [cfg[2]] else [])
    ensures Written(InitSequence(cfg), EP2FIFOCFG) == [0x00] + (if cfg[0] == DirectionOut then [cfg[3]] else [])
  {
    InitOutOnly(cfg, EP2CFG);
    InitOutOnly(cfg, EP2FIFOCFG);
    PrologueEndpoints(cfg);
    OutBranchConfig(cfg);
  }

  /** The FIFOs are reset (NAK, endpoints 2, 4, 6 and 8, resume) exactly when the configuration is valid. */
  lemma InitFifoReset(cfg: seq<bv8>)
    requires |cfg| == 6
    ensures Written(InitSequence(cfg), FIFORESET) == if ConfigValid(cfg) then [0x80, 0x82, 0x84, 0x86, 0x88, 0x00] else []
  {
    WrittenAppend(Prologue(cfg), Branch(cfg), FIFORESET);
    PrologueAbsent(cfg);
    if cfg[0] == DirectionIn {
      InBranchFifoReset(cfg);
    } else if cfg[0] == DirectionOut {
      OutBranchFifoReset(cfg);
    }
  }

  /**
   * An OUT configuration arms endpoint 2 with one OUTPKTEND write of 0x82 per
   * buffer its BUF bits select (the reserved encoding 01 gets two); no other
   * configuration writes OUTPKTEND.
   */
  lemma InitPrimes(cfg: seq<bv8>)
    requires |cfg| == 6
    ensures cfg[0] == DirectionOut ==>
      |Written(InitSequence(cfg), OUTPKTEND)| == (if BufferCount(cfg[2]) == 0 then 2 else BufferCount(cfg[2]))
    ensures forall v :: v in Written(InitSequence(cfg), OUTPKTEND) ==> v == 0x82
    ensures cfg[0] != DirectionOut ==> Written(InitSequence(cfg), OUTPKTEND) == []
  {
    InitOutOnly(cfg, OUTPKTEND);
    PrologueAbsent(cfg);
    OutBranchPrimes(cfg);
    assert Written(InitSequence(cfg), OUTPKTEND) == if cfg[0] == DirectionOut then PrimeValues(cfg[2]) else [];
  }
}

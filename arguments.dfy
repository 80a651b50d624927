/**
 * The checks `main` in src/cannelloni.c applies to `-b` (block size) and
 * `-n` (byte limit) and, once all options are read, to the pair of them.
 *
 * `sscanf` is not modelled: a scan is `None` when it does not convert one
 * value, and otherwise the unsigned 32-bit (`%u`) or 64-bit (`PRIu64`)
 * value it stored.  Each option is given as the scans of all its
 * occurrences, in order.
 * The source tests `x & 1`, bit 0 of an unsigned value, which is `x % 2`.
 */
module Arguments {
  import opened Wrappers
  import Transfer

  const U32: nat := 0x1_0000_0000
  const U64: nat := 0x1_0000_0000_0000_0000

  /** The block size used when `-b` is not given. */
  const DefaultBlockSize: int := 16384

  /** The largest block size the usage text allows: 2^31 - 2. */
  const MaxBlockSize: nat := 0x7fff_fffe

  /** The block size and the byte limit the data phase runs with. */
  datatype Limits = Limits(blockSize: int, limitTransfer: bool, numBytesLimit: nat)

  /** An unsigned 32-bit value. */
  type U32Value = x: nat | x < U32

  /** An unsigned 64-bit value. */
  type U64Value = x: nat | x < U64

  /** Storing an `unsigned int` into an `int`: values from 2^31 up come out negative (two's complement). */
  function SignedOf(b: U32Value): (i: int)
    ensures -0x8000_0000 <= i < 0x8000_0000
    ensures i % U32 == b
  {
    if b < 0x8000_0000 then b else b - U32
  }

  /** Converting an `int` to `uint64_t`, as `%` does with an unsigned 64-bit left operand. */
  function Unsigned64(i: int): (u: nat)
    ensures u < U64 && (0 <= i < U64 ==> u == i)
  {
    i % U64
  }

  // ---------------------------------------------------------------------
  // As written

  /** `-b`: a value below 2 or odd is refused; what is left is stored into the `int` blockSize. */
  function BlockSizeOption(scan: Option<U32Value>): (r: Option<int>)
    ensures r.Some? <==> scan.Some? && scan.value >= 2 && scan.value % 2 == 0
    ensures r.Some? ==> r.value == SignedOf(scan.value)
  {
    if scan.None? || scan.value < 2 || scan.value % 2 != 0 then None
    else Some(SignedOf(scan.value))
  }

  /** `-n`: a value below 2 or odd is refused. */
  function LimitOption(scan: Option<U64Value>): (r: Option<nat>)
    ensures r.Some? <==> scan.Some? && scan.value >= 2 && scan.value % 2 == 0
    ensures r.Some? ==> r.value == scan.value && 2 <= r.value < U64
  {
    if scan.None? || scan.value < 2 || scan.value % 2 != 0 then None
    else Some(scan.value)
  }

  /**
   * `numBytesLimit % blockSize != 0` refuses the run; the `int` is converted
   * to `uint64_t` first.  For a positive block size this is ordinary
   * divisibility, and no limit (0) always passes.
   */
  function Divides(blockSize: int, numBytesLimit: nat): (ok: bool)
    requires Unsigned64(blockSize) != 0
    ensures 0 < blockSize < U64 ==> (ok <==> numBytesLimit % blockSize == 0)
    ensures numBytesLimit == 0 ==> ok
  {
    numBytesLimit % Unsigned64(blockSize) == 0
  }

  /**
   * Every `-b` given, in order: each is checked when it is read, and a
   * refused one ends the program; otherwise the last one sets the block
   * size, which stays 16384 when there is none.
   */
  function BlockSizeOptions(scans: seq<Option<U32Value>>): (r: Option<int>)
    ensures r.Some? <==> forall i :: 0 <= i < |scans| ==> BlockSizeOption(scans[i]).Some?
    ensures r.Some? ==> r.value == if scans == [] then DefaultBlockSize else BlockSizeOption(scans[|scans| - 1]).value
    ensures r.Some? ==> Unsigned64(r.value) != 0
    decreases |scans|
  {
    if scans == [] then Some(DefaultBlockSize)
    else if BlockSizeOptions(scans[..|scans| - 1]).None? then None
    else BlockSizeOption(scans[|scans| - 1])
  }

  /** Every `-n` given, in order, checked the same way; with none there is no limit (0). */
  function LimitOptions(scans: seq<Option<U64Value>>): (r: Option<nat>)
    ensures r.Some? <==> forall i :: 0 <= i < |scans| ==> LimitOption(scans[i]).Some?
    ensures r.Some? ==> r.value == if scans == [] then 0 else LimitOption(scans[|scans| - 1]).value
    decreases |scans|
  {
    if scans == [] then Some(0)
    else if LimitOptions(scans[..|scans| - 1]).None? then None
    else LimitOption(scans[|scans| - 1])
  }

  /**
   * The checks together.  `bs` and `ns` are the scans of every `-b` and
   * `-n` given; any refusal ends the program, and so does a limit that is
   * not a multiple of the block size.
   */
  function CheckLimits(bs: seq<Option<U32Value>>, ns: seq<Option<U64Value>>): (r: Option<Limits>)
    ensures r.Some? <==>
      BlockSizeOptions(bs).Some? && LimitOptions(ns).Some?
      && Divides(BlockSizeOptions(bs).value, LimitOptions(ns).value)
    ensures r.Some? ==> r.value.limitTransfer == (ns != []) && (ns == [] ==> r.value.numBytesLimit == 0)
    ensures r.Some? && bs == [] ==> r.value.blockSize == DefaultBlockSize
    ensures r.Some? && bs != [] ==> r.value.blockSize == SignedOf(bs[|bs| - 1].value)
    ensures r.Some? ==> r.value.numBytesLimit == LimitOptions(ns).value
  {
    var blockSize := BlockSizeOptions(bs);
    var limit := LimitOptions(ns);
    if blockSize.None? || limit.None? then None
    else if !Divides(blockSize.value, limit.value) then None
    else Some(Limits(blockSize.value, ns != [], limit.value))
  }

  /** A refused `-b` ends the program even when a valid one follows it. */
  lemma EarlierRefusalStands(bs: seq<Option<U32Value>>, ns: seq<Option<U64Value>>, i: nat)
    requires i < |bs| && BlockSizeOption(bs[i]).None?
    ensures CheckLimits(bs, ns).None?
  {
  }

  /**
   * `-b 2147483648` passes the check: an even number of at least 2.  It is
   * stored as -2^31, and with no `-n` the divisibility check passes too,
   * because 0 is divisible by anything.
   */
  lemma NegativeBlockSizeAccepted()
    ensures BlockSizeOption(Some(0x8000_0000)) == Some(-0x8000_0000)
    ensures CheckLimits([Some(0x8000_0000)], []) == Some(Limits(-0x8000_0000, false, 0))
  {
    assert SignedOf(0x8000_0000) == -0x8000_0000;
  }

  /** Every accepted `-b` value of 2^31 or more becomes a negative block size. */
  lemma LargeBlockSizesTurnNegative(v: U32Value)
    requires v > MaxBlockSize && v % 2 == 0
    ensures BlockSizeOption(Some(v)).Some? && BlockSizeOption(Some(v)).value < 0
  {
  }

  // ---------------------------------------------------------------------
  // As the usage text intends: an even block size from 2 to 2^31 - 2

  /** `-b` refusing, besides values below 2 and odd ones, everything above 2^31 - 2. */
  function BoundedBlockSizeOption(scan: Option<U32Value>): (r: Option<nat>)
    ensures r.Some? <==> scan.Some? && 2 <= scan.value <= MaxBlockSize && scan.value % 2 == 0
    ensures r.Some? ==> r.value == scan.value
  {
    if scan.None? || scan.value < 2 || scan.value % 2 != 0 || scan.value > 0x7fff_fffe then None
    else Some(scan.value)
  }

  /** Every `-b` given, checked with the bounded `-b`. */
  function BoundedBlockSizeOptions(scans: seq<Option<U32Value>>): (r: Option<nat>)
    ensures r.Some? <==> forall i :: 0 <= i < |scans| ==> BoundedBlockSizeOption(scans[i]).Some?
    ensures r.Some? ==> r.value == if scans == [] then DefaultBlockSize else scans[|scans| - 1].value
    decreases |scans|
  {
    if scans == [] then Some(DefaultBlockSize as nat)
    else if BoundedBlockSizeOptions(scans[..|scans| - 1]).None? then None
    else BoundedBlockSizeOption(scans[|scans| - 1])
  }

  /** The checks with the bounded `-b`. */
  function CheckBoundedLimits(bs: seq<Option<U32Value>>, ns: seq<Option<U64Value>>): (r: Option<Limits>)
    ensures r.Some? <==>
      BoundedBlockSizeOptions(bs).Some? && LimitOptions(ns).Some?
      && LimitOptions(ns).value % BoundedBlockSizeOptions(bs).value == 0
    ensures r.Some? ==> r.value.limitTransfer == (ns != [])
    ensures r.Some? ==> r.value.blockSize == BoundedBlockSizeOptions(bs).value
    ensures r.Some? ==> r.value.numBytesLimit == LimitOptions(ns).value
  {
    var blockSize := BoundedBlockSizeOptions(bs);
    var limit := LimitOptions(ns);
    if blockSize.None? || limit.None? then None
    else if !Divides(blockSize.value, limit.value) then None
    else Some(Limits(blockSize.value, ns != [], limit.value))
  }

  /** The bounded `-b` differs from the check as written only on the values above 2^31 - 2. */
  lemma BoundedAgreesBelowLimit(scan: Option<U32Value>)
    ensures scan.None? || scan.value <= MaxBlockSize ==>
      BoundedBlockSizeOption(scan) == (match BlockSizeOption(scan) case None => None case Some(v) => Some(v as nat))
    ensures scan.Some? && scan.value > MaxBlockSize ==> BoundedBlockSizeOption(scan).None?
  {
  }

  /**
   * What the bounded checks hand to the data phase: an even block size in
   * [2, 2^31 - 2], a limit that is 0 when not given and otherwise even, at
   * least 2 and a multiple of the block size.  Such options meet what the
   * transfer loop needs, in every direction and mode.
   */
  lemma BoundedLimitsAreValid(bs: seq<Option<U32Value>>, ns: seq<Option<U64Value>>, directionIN: bool, disableInOut: bool)
    requires CheckBoundedLimits(bs, ns).Some?
    ensures var l := CheckBoundedLimits(bs, ns).value;
      2 <= l.blockSize <= MaxBlockSize && l.blockSize % 2 == 0
      && l.numBytesLimit % l.blockSize == 0
      && (l.limitTransfer ==> 2 <= l.numBytesLimit && l.numBytesLimit % 2 == 0)
      && (!l.limitTransfer ==> l.numBytesLimit == 0)
      && Transfer.Valid(Transfer.Session(directionIN, disableInOut, l.blockSize, l.limitTransfer, l.numBytesLimit))
  {
    var l := CheckBoundedLimits(bs, ns).value;
  }
}

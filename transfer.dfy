/**
 * The data phase of `main` in src/cannelloni.c: one buffer of `blockSize`
 * bytes is filled from stdin (or with zeros, or by the device) and handed to
 * a bulk transfer, until a signal, the byte limit or an error stops it.
 *
 * Everything outside the program is a parameter: whether the buffer could
 * be allocated, after how many iterations a signal arrives, the bulk
 * transfer as a function of the transfer's index and the number of bytes
 * requested, stdin as a byte sequence, and whether stdout takes each write.
 *
 * `Step` and `RunFrom` define the loop one iteration at a time;
 * `TransferLoop` is the loop itself, proved to compute `Run`; the lemmas at
 * the end state what every run guarantees.
 */
module Transfer {

  /** 2^64: the unsigned 64-bit counters wrap modulo this. */
  const U64: nat := 0x1_0000_0000_0000_0000

  /**
   * What one bulk transfer gives back: its status (0 on success) and the
   * bytes that crossed the bus.  For IN these are the bytes the device sent;
   * for OUT only their number counts: how many of the offered bytes it took.
   */
  datatype Reply = Reply(status: int, data: seq<bv8>)

  /** The options the data phase runs with. */
  datatype Session = Session(
    directionIN: bool, disableInOut: bool, blockSize: nat, limitTransfer: bool, numBytesLimit: nat)

  /** What the argument checks guarantee before the loop starts: a block of at least one byte, a 64-bit limit that is not zero. */
  predicate Valid(s: Session)
  {
    s.blockSize > 0 && s.numBytesLimit < U64 && (s.limitTransfer ==> s.numBytesLimit > 0)
  }

  /** OUT from stdin: the only mode that reads. */
  predicate FromStdin(s: Session)
  {
    !s.directionIN && !s.disableInOut
  }

  /** IN to stdout: the only mode that writes. */
  predicate ToStdout(s: Session)
  {
    s.directionIN && !s.disableInOut
  }

  /** What the loop cannot control: memory, signals, the device and the two streams. */
  datatype Environment = Environment(
    bufferAllocated: bool, signalAfter: nat,
    device: (nat, nat) -> Reply, stdin: seq<bv8>, stdoutAccepts: nat -> bool)

  /** Why the loop ended. */
  datatype Stop =
    | NotStarted         // no buffer, or a signal before the first iteration
    | Signalled          // a signal set doTerminate between two iterations
    | LimitReached       // the block that exhausted the byte limit was transferred
    | FinalBlockDropped  // OUT from stdin: the last block was read, then the loop broke off
    | TransferFailed     // the bulk transfer returned a non-zero status
    | ReadFailed         // fread could not deliver a whole block
    | WriteFailed        // fwrite could not write the received bytes

  /**
   * The loop's state: `doTerminate`, the two 64-bit counters
   * (`totalBytesLeftToTransfer`, `totalBytesTransferred`), the last status,
   * and what has happened so far: the sizes requested by the transfers that
   * succeeded, the bytes that crossed the bus, how much of stdin was read and
   * what went to stdout.
   */
  datatype Progress = Progress(
    doTerminate: bool, left: nat, transferred: nat, status: int, stop: Stop,
    requests: seq<nat>, wire: seq<bv8>, consumed: nat, stdout: seq<bv8>)

  /** A device never hands back more bytes than were requested. */
  ghost predicate Bounded(device: (nat, nat) -> Reply)
  {
    forall i: nat, n: nat :: |device(i, n).data| <= n
  }

  /** A device that always moves every byte requested. */
  ghost predicate Complete(device: (nat, nat) -> Reply)
  {
    forall i: nat, n: nat :: |device(i, n).data| == n
  }

  /** A device whose every transfer succeeds. */
  ghost predicate Healthy(device: (nat, nat) -> Reply)
  {
    forall i: nat, n: nat :: device(i, n).status == 0
  }

  /** A device whose every transfer succeeds without moving a byte. */
  ghost predicate Silent(device: (nat, nat) -> Reply)
  {
    forall i: nat, n: nat :: device(i, n) == Reply(0, [])
  }

  /** A stdout that takes every write. */
  ghost predicate AcceptsAll(stdoutAccepts: nat -> bool)
  {
    forall i: nat :: stdoutAccepts(i)
  }

  /** The bytes the device returned for the successful transfers `rs`, in order. */
  function Received(device: (nat, nat) -> Reply, rs: seq<nat>): seq<bv8>
    decreases |rs|
  {
    if rs == [] then [] else Received(device, rs[..|rs| - 1]) + device(|rs| - 1, rs[|rs| - 1]).data
  }

  function Sum(rs: seq<nat>): nat
    decreases |rs|
  {
    if rs == [] then 0 else Sum(rs[..|rs| - 1]) + rs[|rs| - 1]
  }

  /** A device that moves every byte returns exactly as many bytes as were requested in total. */
  lemma {:induction false} CompleteReceivesAll(device: (nat, nat) -> Reply, rs: seq<nat>)
    requires Complete(device)
    ensures |Received(device, rs)| == Sum(rs)
    decreases |rs|
  {
    if rs != [] {
      CompleteReceivesAll(device, rs[..|rs| - 1]);
    }
  }

  /** A bounded device returns at most as many bytes as were requested in total. */
  lemma {:induction false} ReceivedAtMost(device: (nat, nat) -> Reply, rs: seq<nat>)
    requires Bounded(device)
    ensures |Received(device, rs)| <= Sum(rs)
    decreases |rs|
  {
    if rs != [] {
      ReceivedAtMost(device, rs[..|rs| - 1]);
    }
  }

  /** A device that moves no bytes returns none, however many transfers succeed. */
  lemma {:induction false} SilentReceivesNothing(device: (nat, nat) -> Reply, rs: seq<nat>)
    requires Silent(device)
    ensures Received(device, rs) == []
    decreases |rs|
  {
    if rs != [] {
      SilentReceivesNothing(device, rs[..|rs| - 1]);
      assert device(|rs| - 1, rs[|rs| - 1]) == Reply(0, []);
    }
  }

  /** Requests that are all one size add up to their number times that size. */
  lemma {:induction false} SumOfEqual(rs: seq<nat>, size: nat)
    requires forall i :: 0 <= i < |rs| ==> rs[i] == size
    ensures Sum(rs) == |rs| * size
    decreases |rs|
  {
    if rs != [] {
      SumOfEqual(rs[..|rs| - 1], size);
    }
  }

  /** Moving `n` from one counter kept modulo 2^64 to another keeps their sum modulo 2^64. */
  lemma WrapShift(l: int, t: int, n: int)
    ensures ((l - n) % U64 + (t + n) % U64) % U64 == (l + t) % U64
  {
    var a, b := (l - n) % U64, (t + n) % U64;
    var ka, kb := (l - n) / U64, (t + n) / U64;
    var q, r := (l + t) / U64, (l + t) % U64;
    assert l - n == ka * U64 + a;
    assert t + n == kb * U64 + b;
    assert l + t == q * U64 + r;
    assert a + b == (q - ka - kb) * U64 + r;
    ModUnique(a + b, q - ka - kb, U64, r);
  }

  /** Adding to a counter kept modulo 2^64 is adding modulo 2^64. */
  lemma WrapAdd(a: nat, b: nat)
    ensures (a % U64 + b) % U64 == (a + b) % U64
  {
    var q := a / U64;
    assert a == q * U64 + a % U64;
    assert a + b == (a % U64 + b) + q * U64;
  }

  // ---------------------------------------------------------------------
  // The loop, one iteration at a time

  /** The state before the first iteration; a missing buffer or an early signal has already set doTerminate. */
  function Start(s: Session, e: Environment): (p: Progress)
    ensures p.doTerminate <==> !e.bufferAllocated || e.signalAfter == 0
  {
    Progress(!e.bufferAllocated || e.signalAfter == 0, if s.limitTransfer then s.numBytesLimit else 0, 0,
             0, NotStarted, [], [], 0, [])
  }

  /** The states `Step` and `RunFrom` are defined on. */
  ghost predicate Wf(s: Session, e: Environment, p: Progress)
  {
    Valid(s) && Bounded(e.device) && p.consumed <= |e.stdin|
    && |p.requests| <= e.signalAfter && (!p.doTerminate ==> |p.requests| < e.signalAfter)
  }

  /** Whether this iteration's request reaches the limit, which makes it the last. */
  function Last(s: Session, p: Progress): bool
  {
    s.limitTransfer && s.blockSize >= p.left
  }

  /** The bytes this iteration requests: a whole block, or what is left of the limit when that is no more. */
  function Request(s: Session, p: Progress): (n: nat)
    ensures n <= s.blockSize
  {
    if Last(s, p) then p.left else s.blockSize
  }

  /**
   * One iteration of the loop body.  OUT reads the request from stdin (a
   * short read, or a request of 0 bytes, fails) or zero-fills it; a limited
   * OUT run from stdin stops right after reading its last block.
   */
  ghost function Step(s: Session, e: Environment, p: Progress): (q: Progress)
    requires Wf(s, e, p) && !p.doTerminate
    ensures Wf(s, e, q)
    ensures |q.requests| == |p.requests| + 1 || (|q.requests| == |p.requests| && q.doTerminate)
  {
    var request := Request(s, p);
    if FromStdin(s) && (request == 0 || |e.stdin| - p.consumed < request) then
      p.(doTerminate := true, stop := ReadFailed)
    else if FromStdin(s) && Last(s, p) then
      p.(doTerminate := true, stop := FinalBlockDropped, consumed := p.consumed + request)
    else
      TransferBlock(s, e, p)
  }

  /** Whether the iteration gets as far as a successful bulk transfer. */
  ghost predicate Transfers(s: Session, e: Environment, p: Progress)
  {
    var request := Request(s, p);
    !(FromStdin(s) && (request == 0 || |e.stdin| - p.consumed < request || Last(s, p)))
    && e.device(|p.requests|, request).status == 0
  }

  /**
   * The bulk transfer of the request, once the buffer is ready.  A non-zero
   * status stops the loop; otherwise the transfer is recorded by `Advance`.
   */
  ghost function TransferBlock(s: Session, e: Environment, p: Progress): (q: Progress)
    requires Wf(s, e, p) && !p.doTerminate
    requires FromStdin(s) ==> p.consumed + Request(s, p) <= |e.stdin|
    ensures Wf(s, e, q)
    ensures |q.requests| == |p.requests| + 1 || (|q.requests| == |p.requests| && q.doTerminate)
  {
    var reply := e.device(|p.requests|, Request(s, p));
    if reply.status != 0 then
      p.(doTerminate := true, stop := TransferFailed, status := reply.status,
         consumed := if FromStdin(s) then p.consumed + Request(s, p) else p.consumed)
    else
      Deliver(s, e, Advance(s, e, p), Last(s, p), Chunk(s, e, p.consumed, reply.data))
  }

  /**
   * A successful transfer: the request is recorded, the bytes that crossed
   * the bus are appended, and both 64-bit counters move by their number.
   */
  ghost function Advance(s: Session, e: Environment, p: Progress): (a: Progress)
    requires Bounded(e.device)
    requires FromStdin(s) ==> p.consumed + Request(s, p) <= |e.stdin|
    ensures |a.requests| == |p.requests| + 1 && |p.wire| <= |a.wire| <= |p.wire| + Request(s, p)
    ensures (a.left + a.transferred) % U64 == (p.left + p.transferred) % U64
  {
    WrapShift(p.left, p.transferred, |e.device(|p.requests|, Request(s, p)).data|);
    var request := Request(s, p);
    var data := e.device(|p.requests|, request).data;
    p.(requests := p.requests + [request], wire := p.wire + Chunk(s, e, p.consumed, data),
       left := (p.left - |data|) % U64, transferred := (p.transferred + |data|) % U64,
       consumed := if FromStdin(s) then p.consumed + request else p.consumed)
  }

  /** The bytes that crossed the bus: the device's data for IN, zeros with `-0`, and the next bytes of stdin otherwise. */
  ghost function Chunk(s: Session, e: Environment, consumed: nat, data: seq<bv8>): (chunk: seq<bv8>)
    requires FromStdin(s) ==> consumed + |data| <= |e.stdin|
    ensures |chunk| == |data|
  {
    if s.directionIN then data
    else if s.disableInOut then seq(|data|, _ => 0)
    else e.stdin[consumed..consumed + |data|]
  }

  /**
   * After a successful transfer of `chunk`: IN writes it to stdout, where a
   * write of 0 bytes fails; the last block ends the loop, and a signal is
   * seen after the iteration that completes `signalAfter` transfers.
   */
  ghost function Deliver(s: Session, e: Environment, q: Progress, last: bool, chunk: seq<bv8>): (r: Progress)
    requires Wf(s, e, q.(doTerminate := true)) && q.requests != []
    ensures Wf(s, e, r) && r == q.(doTerminate := r.doTerminate, stop := r.stop, stdout := r.stdout)
    ensures r.doTerminate || q.doTerminate == r.doTerminate
    ensures |r.requests| == e.signalAfter ==> r.doTerminate
  {
    if ToStdout(s) && (|chunk| == 0 || !e.stdoutAccepts(|q.requests| - 1)) then
      q.(doTerminate := true, stop := WriteFailed)
    else
      var r := if ToStdout(s) then q.(stdout := q.stdout + chunk) else q;
      if last then r.(doTerminate := true, stop := LimitReached)
      else if |r.requests| == e.signalAfter then r.(doTerminate := true, stop := Signalled)
      else r
  }

  /** Iterations until doTerminate is set. */
  ghost function RunFrom(s: Session, e: Environment, p: Progress): (q: Progress)
    requires Wf(s, e, p)
    ensures Wf(s, e, q) && q.doTerminate
    decreases e.signalAfter - |p.requests|, if p.doTerminate then 0 else 1
  {
    if p.doTerminate then p else RunFrom(s, e, Step(s, e, p))
  }

  /** The whole data phase. */
  ghost function Run(s: Session, e: Environment): (q: Progress)
    requires Valid(s) && Bounded(e.device)
    ensures q.doTerminate && |q.requests| <= e.signalAfter && q.consumed <= |e.stdin|
  {
    RunFrom(s, e, Start(s, e))
  }

  // ---------------------------------------------------------------------
  // The loop as written

  /** `fread(buffer, count, 1, stdin)` once it has succeeded: the next `count` bytes of stdin. */
  method ReadBlock(buffer: array<bv8>, stdin: seq<bv8>, from: nat, count: nat)
    requires count <= buffer.Length && from + count <= |stdin|
    modifies buffer
    ensures buffer[..count] == stdin[from..from + count]
    ensures buffer[count..] == old(buffer[count..])
  {
    for i := 0 to count
      invariant buffer[..i] == stdin[from..from + i]
      invariant buffer[count..] == old(buffer[count..])
    {
      buffer[i] := stdin[from + i];
    }
  }

  /** `memset(buffer, 0, count)`. */
  method ZeroFill(buffer: array<bv8>, count: nat)
    requires count <= buffer.Length
    modifies buffer
    ensures buffer[..count] == seq(count, _ => 0)
    ensures buffer[count..] == old(buffer[count..])
  {
    for i := 0 to count
      invariant buffer[..i] == seq(i, _ => 0)
      invariant buffer[count..] == old(buffer[count..])
    {
      buffer[i] := 0;
    }
  }

  /** The device's IN data landing in the buffer. */
  method Receive(buffer: array<bv8>, data: seq<bv8>)
    requires |data| <= buffer.Length
    modifies buffer
    ensures buffer[..|data|] == data
    ensures buffer[|data|..] == old(buffer[|data|..])
  {
    for i := 0 to |data|
      invariant buffer[..i] == data[..i]
      invariant buffer[|data|..] == old(buffer[|data|..])
    {
      buffer[i] := data[i];
    }
  }

  /**
   * The body of the `while (!doTerminate)` loop.  Every `break` of the loop
   * comes after doTerminate has been set, so it is a `return` here.
   */
  method LoopBody(s: Session, e: Environment, transferBuffer: array<bv8>, p: Progress) returns (q: Progress)
    requires Wf(s, e, p) && !p.doTerminate && transferBuffer.Length == s.blockSize
    modifies transferBuffer
    ensures q == Step(s, e, p)
  {
    var doTerminate := false;
    var totalBytesLeftToTransfer, totalBytesTransferred := p.left, p.transferred;
    var consumed := p.consumed;

    var numBytesToTransfer := s.blockSize;
    if s.limitTransfer && numBytesToTransfer >= totalBytesLeftToTransfer {
      numBytesToTransfer := totalBytesLeftToTransfer;
      doTerminate := true;
    }
    assert doTerminate == Last(s, p) && numBytesToTransfer == Request(s, p);

    ghost var filled: seq<bv8> := [];
    if !s.directionIN {
      if !s.disableInOut {
        // fread of one item of numBytesToTransfer bytes; an item of 0 bytes is never read
        if numBytesToTransfer == 0 || |e.stdin| - consumed < numBytesToTransfer {
          return p.(doTerminate := true, stop := ReadFailed);
        }
        ReadBlock(transferBuffer, e.stdin, consumed, numBytesToTransfer);
        filled := e.stdin[p.consumed..p.consumed + numBytesToTransfer];
        consumed := consumed + numBytesToTransfer;
        if doTerminate {
          return p.(doTerminate := true, stop := FinalBlockDropped, consumed := consumed);
        }
      } else {
        ZeroFill(transferBuffer, numBytesToTransfer);
        filled := seq(numBytesToTransfer, _ => 0);
      }
    }
    assert Step(s, e, p) == TransferBlock(s, e, p);

    var reply := e.device(|p.requests|, numBytesToTransfer);
    if reply.status != 0 {
      return p.(doTerminate := true, stop := TransferFailed, status := reply.status, consumed := consumed);
    }
    var numBytesTransferred := |reply.data|;
    assert numBytesTransferred <= numBytesToTransfer;
    if s.directionIN {
      Receive(transferBuffer, reply.data);
    } else {
      assert transferBuffer[..numBytesToTransfer] == filled;
      assert transferBuffer[..numBytesTransferred] == filled[..numBytesTransferred];
      if s.disableInOut {
        assert filled[..numBytesTransferred] == seq(numBytesTransferred, _ => 0);
      } else {
        assert filled[..numBytesTransferred] == e.stdin[p.consumed..p.consumed + numBytesTransferred];
      }
    }
    assert transferBuffer[..numBytesTransferred] == Chunk(s, e, p.consumed, reply.data);

    totalBytesLeftToTransfer := (totalBytesLeftToTransfer - numBytesTransferred) % U64;
    totalBytesTransferred := (totalBytesTransferred + numBytesTransferred) % U64;
    q := p.(requests := p.requests + [numBytesToTransfer], wire := p.wire + transferBuffer[..numBytesTransferred],
            left := totalBytesLeftToTransfer, transferred := totalBytesTransferred, consumed := consumed);
    assert Step(s, e, p) == Deliver(s, e, q, doTerminate, transferBuffer[..numBytesTransferred]);

    if s.directionIN && !s.disableInOut {
      // fwrite of one item of numBytesTransferred bytes; an item of 0 bytes is never written
      if numBytesTransferred == 0 || !e.stdoutAccepts(|p.requests|) {
        return q.(doTerminate := true, stop := WriteFailed);
      }
      q := q.(stdout := q.stdout + transferBuffer[..numBytesTransferred]);
    }

    if doTerminate {
      q := q.(doTerminate := true, stop := LimitReached);
    } else if |q.requests| == e.signalAfter {
      // the signal handler runs before the loop condition is evaluated again
      q := q.(doTerminate := true, stop := Signalled);
    }
  }

  /** The buffer allocation, the setting of the byte budget and the `while (!doTerminate)` loop. */
  method TransferLoop(s: Session, e: Environment) returns (out: Progress)
    requires Valid(s) && Bounded(e.device)
    ensures out == Run(s, e)
  {
    var transferBuffer := new bv8[s.blockSize];
    out := Start(s, e);
    while !out.doTerminate
      invariant Wf(s, e, out) && RunFrom(s, e, out) == Run(s, e)
      decreases e.signalAfter - |out.requests|, if out.doTerminate then 0 else 1
    {
      out := LoopBody(s, e, transferBuffer, out);
    }
  }

  // ---------------------------------------------------------------------
  // What every run guarantees

  /** The counters follow the bytes on the bus: exactly with a limit, modulo 2^64 without one. */
  ghost predicate Accounting(s: Session, e: Environment, p: Progress)
  {
    |p.wire| == |Received(e.device, p.requests)|
    && (s.limitTransfer ==> p.transferred == |p.wire| && p.transferred + p.left == s.numBytesLimit)
    && (!s.limitTransfer ==> p.transferred == |p.wire| % U64)
  }

  /** Requests are whole blocks, except the one that exhausts the limit; while the loop runs the limit is not exhausted. */
  ghost predicate Requests(s: Session, e: Environment, p: Progress)
  {
    (forall i :: 0 <= i < |p.requests| ==> 0 < p.requests[i] <= s.blockSize)
    && (forall i :: 0 <= i < |p.requests| - 1 ==> p.requests[i] == s.blockSize)
    && (!p.doTerminate || !s.limitTransfer ==> forall i :: 0 <= i < |p.requests| ==> p.requests[i] == s.blockSize)
    && (s.limitTransfer && (!p.doTerminate || FromStdin(s) || p.stop == Signalled) ==> p.left > 0)
  }

  /** The reply to the `i`-th transfer of the run `p`. */
  function ReplyTo(e: Environment, p: Progress, i: nat): Reply
    requires i < |p.requests|
  {
    e.device(i, p.requests[i])
  }

  /**
   * Why the loop stopped: every recorded transfer succeeded, and each error
   * stop names the event that caused it; also which modes can stop for
   * which reason.
   */
  ghost predicate Stops(s: Session, e: Environment, p: Progress)
  {
    (forall i :: 0 <= i < |p.requests| ==> ReplyTo(e, p, i).status == 0)
    && (p.status != 0 <==> p.stop == TransferFailed)
    && (p.stop == TransferFailed ==> p.status == e.device(|p.requests|, Request(s, p)).status)
    && (p.stop == ReadFailed ==> Request(s, p) == 0 || |e.stdin| - p.consumed < Request(s, p))
    && (p.stop == WriteFailed ==>
          p.requests != [] && (ReplyTo(e, p, |p.requests| - 1).data == [] || !e.stdoutAccepts(|p.requests| - 1)))
    && (p.stop == LimitReached ==>
          p.requests != [] && p.left + |ReplyTo(e, p, |p.requests| - 1).data| == p.requests[|p.requests| - 1])
    && (p.stop == FinalBlockDropped ==> Last(s, p))
    && (!p.doTerminate ==> p.stop == NotStarted)
    && (p.doTerminate && p.stop == NotStarted ==> p.requests == [] && (!e.bufferAllocated || e.signalAfter == 0))
    && (p.stop == Signalled ==> |p.requests| == e.signalAfter)
    && (p.stop == LimitReached ==> s.limitTransfer && !FromStdin(s))
    && (p.stop == FinalBlockDropped ==> s.limitTransfer && FromStdin(s))
    && (p.stop == ReadFailed ==> FromStdin(s))
    && (p.stop == WriteFailed ==> ToStdout(s))
    && (Healthy(e.device) ==> p.stop != TransferFailed)
    && (Complete(e.device) && AcceptsAll(e.stdoutAccepts) ==> p.stop != WriteFailed)
  }

  /** Where the bytes on the bus come from and where they go. */
  ghost predicate Traffic(s: Session, e: Environment, p: Progress)
  {
    (s.directionIN ==> p.wire == Received(e.device, p.requests))
    && (ToStdout(s) ==> p.stdout <= p.wire && (p.stop != WriteFailed ==> p.stdout == p.wire))
    && (!ToStdout(s) ==> p.stdout == [])
    && (!s.directionIN && s.disableInOut ==> forall i :: 0 <= i < |p.wire| ==> p.wire[i] == 0)
    && (FromStdin(s) ==>
          Sum(p.requests) <= p.consumed && (!p.doTerminate ==> p.consumed == Sum(p.requests))
          && (Complete(e.device) ==> Sum(p.requests) <= |e.stdin| && p.wire == e.stdin[..Sum(p.requests)]))
    && (!FromStdin(s) ==> p.consumed == 0)
  }

  /** With a device that moves every byte, a limit that is a multiple of the block is met block by block. */
  ghost predicate Exact(s: Session, e: Environment, p: Progress)
  {
    Complete(e.device) && s.limitTransfer ==>
      (p.stop == LimitReached ==> p.left == 0)
      && (s.blockSize > 0 && s.numBytesLimit % s.blockSize == 0 ==>
            p.left % s.blockSize == 0 && forall i :: 0 <= i < |p.requests| ==> p.requests[i] == s.blockSize)
  }

  ghost predicate Inv(s: Session, e: Environment, p: Progress)
  {
    Wf(s, e, p) && Accounting(s, e, p) && Requests(s, e, p) && Stops(s, e, p) && Traffic(s, e, p) && Exact(s, e, p)
  }

  lemma AppendOne(device: (nat, nat) -> Reply, rs: seq<nat>, r: nat)
    ensures Received(device, rs + [r]) == Received(device, rs) + device(|rs|, r).data
    ensures Sum(rs + [r]) == Sum(rs) + r
  {
    assert (rs + [r])[..|rs|] == rs;
  }

  /** A positive multiple of a positive number is at least that number. */
  lemma MultipleAtLeast(d: int, m: int)
    ensures d >= 1 && m > 0 ==> d * m >= m
  {
    if d >= 1 && m > 0 {
      assert d * m == (d - 1) * m + m;
      assert (d - 1) * m >= 0;
    }
  }

  /** Division with remainder has one answer. */
  lemma ModUnique(y: int, a: int, m: int, r: int)
    requires m > 0 && 0 <= r < m && y == a * m + r
    ensures y % m == r
  {
    var q, t := y / m, y % m;
    assert y == q * m + t;
    assert (a - q) * m == t - r;
    assert (q - a) * m == r - t;
    MultipleAtLeast(a - q, m);
    MultipleAtLeast(q - a, m);
  }

  /** Taking one block off a multiple of the block size leaves a multiple. */
  lemma MultipleMinus(x: nat, m: nat)
    requires m > 0 && x % m == 0 && x >= m
    ensures (x - m) % m == 0
  {
    var k := x / m;
    assert x == k * m + 0;
    assert x - m == (k - 1) * m + 0;
    ModUnique(x - m, k - 1, m, 0);
  }

  /** The only positive multiple of `m` that is at most `m` is `m` itself. */
  lemma MultipleBelow(x: nat, m: nat)
    requires m > 0 && x % m == 0 && 0 < x <= m
    ensures x == m
  {
    var k := x / m;
    assert x == k * m;
    assert (1 - k) * m == m - x;
    assert (k - 1) * m == x - m;
    MultipleAtLeast(1 - k, m);
    MultipleAtLeast(k - 1, m);
  }

  lemma StartInv(s: Session, e: Environment)
    requires Valid(s) && Bounded(e.device)
    ensures Inv(s, e, Start(s, e))
  {
  }

  /** An iteration that transfers nothing changes only doTerminate, the stop reason, the status and how much stdin was read. */
  lemma StepHalts(s: Session, e: Environment, p: Progress)
    requires Wf(s, e, p) && !p.doTerminate && !Transfers(s, e, p)
    ensures var q := Step(s, e, p);
      q == p.(doTerminate := true, stop := q.stop, status := q.status, consumed := q.consumed)
      && q.stop in {ReadFailed, FinalBlockDropped, TransferFailed}
      && (q.stop == TransferFailed ==> q.status == e.device(|p.requests|, Request(s, p)).status != 0)
      && (q.stop != TransferFailed ==> q.status == p.status)
      && (q.stop == ReadFailed ==>
            q.consumed == p.consumed && (Request(s, p) == 0 || |e.stdin| - p.consumed < Request(s, p)))
      && (q.stop == FinalBlockDropped ==> Last(s, p) && FromStdin(s))
      && (q.stop == ReadFailed ==> FromStdin(s))
  {
  }

  /** The state after a successful transfer: `Advance`, then the delivery's changes to doTerminate, the stop reason and stdout. */
  ghost predicate Advanced(s: Session, e: Environment, p: Progress, q: Progress)
    requires Wf(s, e, p) && !p.doTerminate && Transfers(s, e, p)
  {
    var chunk := Chunk(s, e, p.consumed, e.device(|p.requests|, Request(s, p)).data);
    q == Advance(s, e, p).(doTerminate := q.doTerminate, stop := q.stop, stdout := q.stdout)
    && (ToStdout(s) ==> q.stdout == p.stdout + chunk || q.stdout == p.stdout)
    && (!ToStdout(s) ==> q.stdout == p.stdout)
    && (q.stop == LimitReached ==> Last(s, p) || q.stop == p.stop)
    && (Last(s, p) ==> q.doTerminate && (q.stop == LimitReached || q.stop == WriteFailed))
  }

  /**
   * An iteration whose transfer succeeds is `Advance` followed by the
   * delivery to stdout, which changes only doTerminate, the stop reason and
   * stdout.
   */
  lemma StepTransfers(s: Session, e: Environment, p: Progress)
    requires Wf(s, e, p) && !p.doTerminate && Transfers(s, e, p)
    ensures var q := Step(s, e, p);
      Advanced(s, e, p, q) && (q.doTerminate || q.stop == p.stop)
      && (ToStdout(s) && q.stdout == p.stdout ==> q.stop == WriteFailed)
      && (q.doTerminate ==> q.stop in {WriteFailed, LimitReached, Signalled})
      && (q.doTerminate && q.stop == WriteFailed ==>
            ToStdout(s) && (e.device(|p.requests|, Request(s, p)).data == [] || !e.stdoutAccepts(|p.requests|)))
      && (q.doTerminate && q.stop == Signalled ==> |q.requests| == e.signalAfter)
  {
  }

  lemma StepAccounting(s: Session, e: Environment, p: Progress)
    requires Wf(s, e, p) && !p.doTerminate && Accounting(s, e, p)
    ensures Accounting(s, e, Step(s, e, p))
  {
    if Transfers(s, e, p) {
      StepTransfers(s, e, p);
      AdvancedAccounting(s, e, p, Step(s, e, p));
    } else {
      StepHalts(s, e, p);
    }
  }

  lemma AdvancedAccounting(s: Session, e: Environment, p: Progress, q: Progress)
    requires Wf(s, e, p) && !p.doTerminate && Transfers(s, e, p) && Advanced(s, e, p, q) && Accounting(s, e, p)
    ensures Accounting(s, e, q)
  {
    var n := |e.device(|p.requests|, Request(s, p)).data|;
    AppendOne(e.device, p.requests, Request(s, p));
    assert q.requests == p.requests + [Request(s, p)] && |q.wire| == |p.wire| + n;
    if s.limitTransfer {
      LimitedCounters(s, p, q, n);
    } else {
      WrapAdd(|p.wire|, n);
      assert q.transferred == (p.transferred + n) % U64;
    }
  }

  /** With a limit, both counters move by the bytes transferred, which never exceed what is left. */
  lemma LimitedCounters(s: Session, p: Progress, q: Progress, n: nat)
    requires s.limitTransfer && p.transferred + p.left == s.numBytesLimit < U64 && n <= p.left
    requires q.left == (p.left - n) % U64 && q.transferred == (p.transferred + n) % U64
    ensures q.transferred + q.left == s.numBytesLimit && q.transferred == p.transferred + n
  {
  }

  lemma StepRequests(s: Session, e: Environment, p: Progress)
    requires Wf(s, e, p) && !p.doTerminate && Accounting(s, e, p) && Requests(s, e, p)
    ensures Requests(s, e, Step(s, e, p))
  {
    if Transfers(s, e, p) {
      StepTransfers(s, e, p);
      AdvancedRequests(s, e, p, Step(s, e, p));
    } else {
      StepHalts(s, e, p);
    }
  }

  lemma AdvancedRequests(s: Session, e: Environment, p: Progress, q: Progress)
    requires Wf(s, e, p) && !p.doTerminate && Transfers(s, e, p) && Advanced(s, e, p, q)
    requires Accounting(s, e, p) && Requests(s, e, p)
    requires q.doTerminate || q.stop == p.stop
    ensures Requests(s, e, q)
  {
    assert |e.device(|p.requests|, Request(s, p)).data| <= Request(s, p);
    assert q.requests == p.requests + [Request(s, p)];
  }

  lemma StepStops(s: Session, e: Environment, p: Progress)
    requires Wf(s, e, p) && !p.doTerminate && Accounting(s, e, p) && Requests(s, e, p) && Stops(s, e, p)
    ensures Stops(s, e, Step(s, e, p))
  {
    if Transfers(s, e, p) {
      StepTransfers(s, e, p);
      AdvancedStops(s, e, p, Step(s, e, p));
    } else {
      StepHalts(s, e, p);
      var q := Step(s, e, p);
      assert forall i :: 0 <= i < |p.requests| ==> ReplyTo(e, q, i) == ReplyTo(e, p, i);
    }
  }

  lemma AdvancedStops(s: Session, e: Environment, p: Progress, q: Progress)
    requires Wf(s, e, p) && !p.doTerminate && Transfers(s, e, p) && Advanced(s, e, p, q)
    requires Accounting(s, e, p) && Requests(s, e, p) && Stops(s, e, p)
    requires q.doTerminate || q.stop == p.stop
    requires q.doTerminate ==> q.stop in {WriteFailed, LimitReached, Signalled}
    requires q.doTerminate && q.stop == WriteFailed ==>
      ToStdout(s) && (e.device(|p.requests|, Request(s, p)).data == [] || !e.stdoutAccepts(|p.requests|))
    requires q.doTerminate && q.stop == Signalled ==> |q.requests| == e.signalAfter
    ensures Stops(s, e, q)
  {
    var request := Request(s, p);
    var n := |e.device(|p.requests|, request).data|;
    assert q.requests == p.requests + [request] && ReplyTo(e, q, |p.requests|) == e.device(|p.requests|, request);
    assert forall i :: 0 <= i < |p.requests| ==> ReplyTo(e, q, i) == ReplyTo(e, p, i);
    if q.stop == LimitReached {
      assert Last(s, p) && n <= request == p.left;
      LimitedCounters(s, p, q, n);
    }
  }

  lemma StepTraffic(s: Session, e: Environment, p: Progress)
    requires Wf(s, e, p) && !p.doTerminate && Stops(s, e, p) && Traffic(s, e, p)
    ensures Traffic(s, e, Step(s, e, p))
  {
    if Transfers(s, e, p) {
      StepTransfers(s, e, p);
      AdvancedTraffic(s, e, p, Step(s, e, p));
    } else {
      StepHalts(s, e, p);
    }
  }

  lemma AdvancedTraffic(s: Session, e: Environment, p: Progress, q: Progress)
    requires Wf(s, e, p) && !p.doTerminate && Transfers(s, e, p) && Advanced(s, e, p, q)
    requires Stops(s, e, p) && Traffic(s, e, p)
    requires ToStdout(s) && q.stdout == p.stdout ==> q.stop == WriteFailed
    requires q.doTerminate || q.stop == p.stop
    ensures Traffic(s, e, q)
  {
    AppendOne(e.device, p.requests, Request(s, p));
    assert q.requests == p.requests + [Request(s, p)];
    if s.directionIN {
      AdvancedTrafficIn(s, e, p, q);
    } else if s.disableInOut {
      AdvancedTrafficZeros(s, e, p, q);
    } else {
      AdvancedTrafficStdin(s, e, p, q);
    }
  }

  lemma AdvancedTrafficIn(s: Session, e: Environment, p: Progress, q: Progress)
    requires Wf(s, e, p) && !p.doTerminate && Transfers(s, e, p) && Advanced(s, e, p, q)
    requires Stops(s, e, p) && Traffic(s, e, p) && s.directionIN
    requires ToStdout(s) && q.stdout == p.stdout ==> q.stop == WriteFailed
    requires Received(e.device, q.requests) == Received(e.device, p.requests) + e.device(|p.requests|, Request(s, p)).data
    ensures Traffic(s, e, q)
  {
    var data := e.device(|p.requests|, Request(s, p)).data;
    assert q.wire == p.wire + data && q.consumed == 0;
  }

  lemma AdvancedTrafficZeros(s: Session, e: Environment, p: Progress, q: Progress)
    requires Wf(s, e, p) && !p.doTerminate && Transfers(s, e, p) && Advanced(s, e, p, q)
    requires Traffic(s, e, p) && !s.directionIN && s.disableInOut
    ensures Traffic(s, e, q)
  {
    var data := e.device(|p.requests|, Request(s, p)).data;
    assert q.wire == p.wire + seq(|data|, _ => 0) && q.consumed == 0 && q.stdout == [];
  }

  lemma AdvancedTrafficStdin(s: Session, e: Environment, p: Progress, q: Progress)
    requires Wf(s, e, p) && !p.doTerminate && Transfers(s, e, p) && Advanced(s, e, p, q)
    requires Traffic(s, e, p) && FromStdin(s)
    requires q.requests == p.requests + [Request(s, p)] && Sum(q.requests) == Sum(p.requests) + Request(s, p)
    ensures Traffic(s, e, q)
  {
    var data := e.device(|p.requests|, Request(s, p)).data;
    assert q.wire == p.wire + e.stdin[p.consumed..p.consumed + |data|] && q.stdout == [];
    assert q.consumed == p.consumed + Request(s, p) && q.consumed == Sum(q.requests);
    if Complete(e.device) {
      assert e.stdin[..Sum(p.requests)] + e.stdin[p.consumed..p.consumed + |data|]
          == e.stdin[..Sum(p.requests) + Request(s, p)];
    }
  }

  lemma StepExact(s: Session, e: Environment, p: Progress)
    requires Wf(s, e, p) && !p.doTerminate && Accounting(s, e, p) && Requests(s, e, p) && Exact(s, e, p)
    ensures Exact(s, e, Step(s, e, p))
  {
    if Transfers(s, e, p) {
      StepTransfers(s, e, p);
      AdvancedExact(s, e, p, Step(s, e, p));
    } else {
      StepHalts(s, e, p);
    }
  }

  lemma AdvancedExact(s: Session, e: Environment, p: Progress, q: Progress)
    requires Wf(s, e, p) && !p.doTerminate && Transfers(s, e, p) && Advanced(s, e, p, q)
    requires Accounting(s, e, p) && Requests(s, e, p) && Exact(s, e, p)
    ensures Exact(s, e, q)
  {
    if Complete(e.device) && s.limitTransfer {
      var request := Request(s, p);
      assert |e.device(|p.requests|, request).data| == request;
      LimitedCounters(s, p, q, request);
      assert q.requests == p.requests + [request];
      if s.numBytesLimit % s.blockSize == 0 {
        BlockOffMultiple(p.left, s.blockSize);
      }
    }
  }

  /** A request taken off a positive multiple of the block size is a whole block and leaves a multiple. */
  lemma BlockOffMultiple(left: nat, blockSize: nat)
    requires blockSize > 0 && left > 0 && left % blockSize == 0
    ensures var request := if blockSize >= left then left else blockSize;
      request == blockSize && (left - request) % blockSize == 0
  {
    if blockSize >= left {
      MultipleBelow(left, blockSize);
    } else {
      MultipleMinus(left, blockSize);
    }
  }

  lemma StepInv(s: Session, e: Environment, p: Progress)
    requires Inv(s, e, p) && !p.doTerminate
    ensures Inv(s, e, Step(s, e, p))
  {
    StepAccounting(s, e, p);
    StepRequests(s, e, p);
    StepStops(s, e, p);
    StepTraffic(s, e, p);
    StepExact(s, e, p);
  }

  lemma {:induction false} RunFromInv(s: Session, e: Environment, p: Progress)
    requires Inv(s, e, p)
    ensures Inv(s, e, RunFrom(s, e, p))
    decreases e.signalAfter - |p.requests|, if p.doTerminate then 0 else 1
  {
    if !p.doTerminate {
      StepInv(s, e, p);
      RunFromInv(s, e, Step(s, e, p));
    }
  }

  lemma RunInv(s: Session, e: Environment)
    requires Valid(s) && Bounded(e.device)
    ensures Inv(s, e, Run(s, e))
  {
    StartInv(s, e);
    RunFromInv(s, e, Start(s, e));
  }

  // ---------------------------------------------------------------------
  // Theorems about the whole data phase

  /** Why a run stopped, and what each reason implies about the options and the environment. */
  lemma StopReasons(s: Session, e: Environment)
    requires Valid(s) && Bounded(e.device)
    ensures var r := Run(s, e);
      (r.stop == NotStarted <==> !e.bufferAllocated || e.signalAfter == 0)
      && (r.stop == NotStarted ==> r.requests == [] && r.wire == [])
      && (forall i :: 0 <= i < |r.requests| ==> ReplyTo(e, r, i).status == 0)
      && (r.status != 0 <==> r.stop == TransferFailed)
      && (r.stop == TransferFailed ==> r.status == e.device(|r.requests|, Request(s, r)).status)
      && (r.stop == ReadFailed ==> Request(s, r) == 0 || |e.stdin| - r.consumed < Request(s, r))
      && (r.stop == WriteFailed ==>
            r.requests != [] && (ReplyTo(e, r, |r.requests| - 1).data == [] || !e.stdoutAccepts(|r.requests| - 1)))
      && (r.stop == LimitReached ==>
            r.requests != [] && r.left + |ReplyTo(e, r, |r.requests| - 1).data| == r.requests[|r.requests| - 1])
      && |r.requests| <= e.signalAfter
      && (r.stop == Signalled ==> |r.requests| == e.signalAfter)
      && (r.stop == LimitReached ==> s.limitTransfer && !FromStdin(s))
      && (r.stop == FinalBlockDropped ==> s.limitTransfer && FromStdin(s))
      && (r.stop == ReadFailed ==> FromStdin(s))
      && (r.stop == WriteFailed ==> ToStdout(s))
  {
    RunInv(s, e);
  }

  /** The two 64-bit counters against the bytes that crossed the bus. */
  lemma Counters(s: Session, e: Environment)
    requires Valid(s) && Bounded(e.device)
    ensures var r := Run(s, e);
      |r.wire| == |Received(e.device, r.requests)| <= Sum(r.requests)
      && (s.limitTransfer ==> r.transferred == |r.wire| && r.transferred + r.left == s.numBytesLimit)
      && (!s.limitTransfer ==> r.transferred == |r.wire| % U64)
  {
    RunInv(s, e);
    ReceivedAtMost(e.device, Run(s, e).requests);
  }

  /** Every request is a whole block except a final one that takes what is left of the limit. */
  lemma RequestSizes(s: Session, e: Environment)
    requires Valid(s) && Bounded(e.device)
    ensures var r := Run(s, e);
      (forall i :: 0 <= i < |r.requests| ==> 0 < r.requests[i] <= s.blockSize)
      && (forall i :: 0 <= i < |r.requests| - 1 ==> r.requests[i] == s.blockSize)
      && (!s.limitTransfer ==> forall i :: 0 <= i < |r.requests| ==> r.requests[i] == s.blockSize)
  {
    RunInv(s, e);
  }

  /** Where the bytes come from and where they go in each mode. */
  lemma DataPath(s: Session, e: Environment)
    requires Valid(s) && Bounded(e.device)
    ensures var r := Run(s, e);
      (s.directionIN ==> r.wire == Received(e.device, r.requests))
      && (ToStdout(s) ==> r.stdout <= r.wire && (r.stop != WriteFailed ==> r.stdout == r.wire))
      && (!ToStdout(s) ==> r.stdout == [])
      && (!s.directionIN && s.disableInOut ==> forall i :: 0 <= i < |r.wire| ==> r.wire[i] == 0)
      && (FromStdin(s) ==> Sum(r.requests) <= r.consumed <= |e.stdin|)
      && (FromStdin(s) && Complete(e.device) ==> r.wire <= e.stdin)
      && (!FromStdin(s) ==> r.consumed == 0)
  {
    RunInv(s, e);
    var r := Run(s, e);
    if FromStdin(s) && Complete(e.device) {
      assert r.wire == e.stdin[..Sum(r.requests)];
    }
  }

  /**
   * OUT from stdin with a limit never reaches it: the block that would
   * exhaust the limit is read and then dropped.
   */
  lemma OutFromStdinFallsShort(s: Session, e: Environment)
    requires Valid(s) && Bounded(e.device) && FromStdin(s) && s.limitTransfer
    ensures Run(s, e).stop != LimitReached && Run(s, e).transferred < s.numBytesLimit
  {
    RunInv(s, e);
  }

  /**
   * With a healthy device that moves every byte, a stdout that takes every
   * write, no signal before the limit's last block and a limit that is a
   * multiple of the block size, a run that does not read stdin transfers
   * exactly the limit, in whole blocks.
   */
  lemma LimitMetExactly(s: Session, e: Environment)
    requires Valid(s) && Bounded(e.device) && Complete(e.device) && Healthy(e.device) && AcceptsAll(e.stdoutAccepts)
    requires e.bufferAllocated && s.limitTransfer && !FromStdin(s)
    requires s.numBytesLimit % s.blockSize == 0 && e.signalAfter * s.blockSize >= s.numBytesLimit
    ensures var r := Run(s, e);
      r.stop == LimitReached && r.transferred == s.numBytesLimit && r.left == 0
      && |r.wire| == s.numBytesLimit && |r.requests| * s.blockSize == s.numBytesLimit
      && forall i :: 0 <= i < |r.requests| ==> r.requests[i] == s.blockSize
  {
    RunInv(s, e);
    var r := Run(s, e);
    CompleteReceivesAll(e.device, r.requests);
    SumOfEqual(r.requests, s.blockSize);
    assert r.stop == Signalled ==> |r.requests| * s.blockSize >= s.numBytesLimit;
  }

  /**
   * Without a limit, a run that does not read stdin ends only by a signal
   * when the device never fails and, for IN to stdout, moves every byte
   * and stdout takes every write: the loop streams until the signal comes.
   */
  lemma UnlimitedRunEndsBySignal(s: Session, e: Environment)
    requires Valid(s) && Bounded(e.device) && Healthy(e.device)
    requires !s.limitTransfer && !FromStdin(s) && (ToStdout(s) ==> Complete(e.device) && AcceptsAll(e.stdoutAccepts))
    requires e.bufferAllocated && e.signalAfter > 0
    ensures Run(s, e).stop == Signalled && |Run(s, e).requests| == e.signalAfter
  {
    RunInv(s, e);
  }

  /**
   * With a limit of more than one block and `-0`, a device that accepts
   * every transfer but moves no bytes never lowers the bytes left: the loop
   * runs until a signal, with nothing transferred.
   */
  lemma ZeroLengthRepliesSpin(s: Session, e: Environment)
    requires Valid(s) && Bounded(e.device) && Silent(e.device)
    requires s.disableInOut && s.limitTransfer && s.blockSize < s.numBytesLimit
    requires e.bufferAllocated && e.signalAfter > 0
    ensures var r := Run(s, e);
      r.stop == Signalled && |r.requests| == e.signalAfter && r.transferred == 0 && r.left == s.numBytesLimit
  {
    RunInv(s, e);
    var r := Run(s, e);
    SilentReceivesNothing(e.device, r.requests);
    assert Healthy(e.device) by {
      forall i: nat, n: nat ensures e.device(i, n).status == 0 {
        assert e.device(i, n) == Reply(0, []);
      }
    }
  }
}

/**
 * The transfer primitive of the Windows send-file path
 * (internal/poll/sendfile_windows.go): it refuses pipe destinations, takes
 * the descriptor's write lock, fills the write-side overlapped operation
 * with the byte count, the source file handle and the 64-bit offset split
 * into two 32-bit halves, submits TransmitFile through the I/O completion
 * machinery, releases the lock and hands back what the completion reported.
 *
 * The descriptor keeps a ghost history of its write-lock events and of the
 * TransmitFile calls submitted on it, so that the lock discipline and the
 * arguments of every transfer can be stated exactly.
 */
module Poll {
  import opened Ints
  import opened Options
  import opened Syscall

  /** The kinds of descriptor a `poll.FD` wraps on Windows. */
  datatype FileKind = KindNet | KindFile | KindConsole | KindDir | KindPipe

  /** TransmitFile's TF_WRITE_BEHIND flag: complete without waiting for the peer. */
  const TF_WRITE_BEHIND: uint32 := 4

  /**
   * The arguments of one TransmitFile call: destination socket, source file,
   * number of bytes to write, the OVERLAPPED offset halves and the flags.
   * The bytes-per-send argument is always 0 and the header/trailer buffers
   * always nil, so they are not recorded.
   */
  datatype TransmitCall = TransmitCall(
    socket: Handle, file: Handle, bytesToWrite: uint32,
    offset: uint32, offsetHigh: uint32, flags: uint32)

  /** What the I/O completion port reports for a submitted call. */
  datatype Completion = Completion(qty: uint32, err: Option<Error>)

  /** One entry of a descriptor's write-side history. */
  datatype Event = WriteLocked | WriteUnlocked | Transmitted(call: TransmitCall)

  /**
   * Replays a history starting from lock state `held`: the lock state it
   * ends in, or None when the history takes a held lock, releases a free
   * one, or submits a transfer without holding the lock.
   */
  function LockRun(h: seq<Event>, held: bool): Option<bool>
  {
    if h == [] then Some(held)
    else match h[0]
      case WriteLocked => if held then None else LockRun(h[1..], true)
      case WriteUnlocked => if held then LockRun(h[1..], false) else None
      case Transmitted(_) => if held then LockRun(h[1..], true) else None
  }

  /** Replaying a concatenation replays the first part, then the second from where it ended. */
  lemma {:induction false} LockRunConcat(a: seq<Event>, b: seq<Event>, held: bool)
    ensures LockRun(a + b, held) ==
            (match LockRun(a, held) case None => None case Some(t) => LockRun(b, t))
  {
    if a == [] {
      assert a + b == b;
    } else {
      assert (a + b)[0] == a[0];
      assert (a + b)[1..] == a[1..] + b;
      LockRunConcat(a[1..], b, true);
      LockRunConcat(a[1..], b, false);
    }
  }

  /** Go's `errClosing(isFile)`: the error for a descriptor that is being closed. */
  function ErrClosing(isFile: bool): Error
  {
    if isFile then ErrFileClosing else ErrNetClosing
  }

  /** The low half of the OVERLAPPED offset: `uint32(curpos)`. */
  function OffsetLow(curpos: int64): uint32
  {
    Uint32(curpos)
  }

  /** The high half of the OVERLAPPED offset: `uint32(curpos >> 32)`. */
  function OffsetHigh(curpos: int64): uint32
  {
    Uint32(Shr32(curpos))
  }

  /** The signed 64-bit offset the OS reads back from the two halves. */
  function JoinOffset(lo: uint32, hi: uint32): int64
  {
    Int64(hi * TWO_32 + lo)
  }

  /**
   * Splitting an offset into its halves loses nothing: the halves join back
   * to the same offset, and for a non-negative offset the high half times
   * 2^32 plus the low half is the offset itself.
   */
  lemma SplitJoin(curpos: int64)
    ensures JoinOffset(OffsetLow(curpos), OffsetHigh(curpos)) == curpos
    ensures 0 <= curpos ==> OffsetHigh(curpos) * TWO_32 + OffsetLow(curpos) == curpos
  {
  }

  /** Every pair of halves is the split of exactly one offset. */
  lemma JoinSplit(lo: uint32, hi: uint32)
    ensures OffsetLow(JoinOffset(lo, hi)) == lo
    ensures OffsetHigh(JoinOffset(lo, hi)) == hi
  {
  }

  /** `uint32(n)` keeps the request intact exactly when it fits in 32 bits. */
  lemma QtyTruncation(n: int64)
    ensures Uint32(n) == n <==> 0 <= n < TWO_32
  {
  }

  /**
   * The end of the byte range TransmitFile sends from offset `pos` of a file
   * of `fileSize` bytes when asked for `qty` bytes; a count of zero asks for
   * the rest of the file.
   */
  function TransmitEnd(pos: int, qty: uint32, fileSize: int): int
  {
    if qty == 0 || pos + qty > fileSize then fileSize else pos + qty
  }

  /** The write-side overlapped operation (`fd.wop`) as SendFile fills it in. */
  class Operation {
    var qty: uint32         // bytes to write
    var handle: Handle      // source file
    var offset: uint32      // OVERLAPPED.Offset
    var offsetHigh: uint32  // OVERLAPPED.OffsetHigh

    constructor ()
      ensures qty == 0 && handle == 0 && offset == 0 && offsetHigh == 0
    {
      qty, handle, offset, offsetHigh := 0, 0, 0, 0;
    }
  }

  /** A `poll.FD`: the parts of the descriptor the send-file path uses. */
  class FD {
    const sysfd: Handle
    const kind: FileKind
    const isFile: bool
    const wop: Operation
    var closing: bool         // the descriptor's mutex has been marked closed
    var writeLocked: bool     // the write side is held
    ghost var events: seq<Event>

    /** The history is well bracketed and ends in the current lock state. */
    ghost predicate Valid()
      reads this
    {
      LockRun(events, false) == Some(writeLocked)
    }

    constructor (sysfd: Handle, kind: FileKind, isFile: bool)
      ensures Valid() && fresh(wop)
      ensures this.sysfd == sysfd && this.kind == kind && this.isFile == isFile
      ensures !closing && !writeLocked && events == []
    {
      this.sysfd, this.kind, this.isFile := sysfd, kind, isFile;
      wop := new Operation();
      closing, writeLocked := false, false;
      events := [];
    }

    /**
     * `fd.writeLock()`: fails with the closing error once the descriptor is
     * being closed, and otherwise takes the write side. Waiting for another
     * writer is not modelled, so the caller must not hold the lock already.
     */
    method WriteLock() returns (err: Option<Error>)
      requires Valid() && !writeLocked
      modifies this`writeLocked, this`events
      ensures Valid()
      ensures err == (if closing then Some(ErrClosing(isFile)) else None)
      ensures writeLocked == !closing
      ensures events == old(events) + (if closing then [] else [WriteLocked])
    {
      if closing {
        return Some(ErrClosing(isFile));
      }
      LockRunConcat(events, [WriteLocked], false);
      writeLocked := true;
      events := events + [WriteLocked];
      err := None;
    }

    /** `fd.writeUnlock()`: releases the write side. */
    method WriteUnlock()
      requires Valid() && writeLocked
      modifies this`writeLocked, this`events
      ensures Valid() && !writeLocked
      ensures events == old(events) + [WriteUnlocked]
    {
      LockRunConcat(events, [WriteUnlocked], false);
      writeLocked := false;
      events := events + [WriteUnlocked];
    }
  }

  /**
   * `wsrv.ExecIO(&fd.wop, TransmitFile)`: submits TransmitFile with the
   * arguments held in `fd.wop`, waits for completion and returns what the
   * completion port reported (`c`, supplied by the caller in place of the OS).
   * The completion stores the count sent in the operation's `qty`, which is
   * what ExecIO returns. Only ever reached with the write side held.
   */
  method ExecIO(fd: FD, c: Completion) returns (done: int, err: Option<Error>)
    requires fd.Valid() && fd.writeLocked
    modifies fd`events, fd.wop`qty
    ensures fd.Valid()
    ensures fd.events == old(fd.events) + [Transmitted(TransmitCall(
              fd.sysfd, fd.wop.handle, old(fd.wop.qty), fd.wop.offset, fd.wop.offsetHigh, TF_WRITE_BEHIND))]
    ensures fd.wop.qty == c.qty
    ensures done == c.qty && err == c.err
  {
    var call := TransmitCall(fd.sysfd, fd.wop.handle, fd.wop.qty, fd.wop.offset, fd.wop.offsetHigh, TF_WRITE_BEHIND);
    LockRunConcat(fd.events, [Transmitted(call)], false);
    fd.events := fd.events + [Transmitted(call)];
    fd.wop.qty := c.qty;
    done, err := fd.wop.qty, c.err;
  }

  /** The TransmitFile call SendFile submits for the given request. */
  function Call(fd: FD, src: Handle, curpos: int64, n: int64): TransmitCall
  {
    TransmitCall(fd.sysfd, src, Uint32(n), OffsetLow(curpos), OffsetHigh(curpos), TF_WRITE_BEHIND)
  }

  /** Whether SendFile gets as far as submitting a transfer on `fd`. */
  predicate Submits(fd: FD)
    reads fd
  {
    fd.kind != KindPipe && !fd.closing
  }

  /** What SendFile returns on `fd` when the completion port reports `c`. */
  function Reply(fd: FD, c: Completion): (int64, Option<Error>)
    reads fd
  {
    if fd.kind == KindPipe then (0, Some(Errno(ESPIPE)))
    else if fd.closing then (0, Some(ErrClosing(fd.isFile)))
    else (c.qty, c.err)
  }

  /**
   * `poll.SendFile`: transfers `n` bytes (0: the rest of the file) of file
   * `src` from offset `curpos` to the socket of `fd`.
   */
  method SendFile(fd: FD, src: Handle, curpos: int64, n: int64, c: Completion)
    returns (written: int64, err: Option<Error>)
    requires fd.Valid() && !fd.writeLocked
    modifies fd`writeLocked, fd`events, fd.wop
    ensures fd.Valid() && !fd.writeLocked
    // a pipe is refused before the lock is taken or the operation touched
    ensures fd.kind == KindPipe ==>
              && written == 0 && err == Some(Errno(ESPIPE))
              && fd.events == old(fd.events) && unchanged(fd.wop)
    // a failed lock is reported with no transfer
    ensures fd.kind != KindPipe && fd.closing ==>
              && written == 0 && err == Some(ErrClosing(fd.isFile))
              && fd.events == old(fd.events) && unchanged(fd.wop)
    // otherwise: lock, one transfer with the request's arguments (the count
    // truncated to 32 bits), unlock; the completion leaves the count sent in qty
    ensures Submits(fd) ==>
              && fd.wop.qty == c.qty && fd.wop.handle == src
              && fd.wop.offset == OffsetLow(curpos) && fd.wop.offsetHigh == OffsetHigh(curpos)
              && fd.events == old(fd.events)
                   + [WriteLocked, Transmitted(Call(fd, src, curpos, n)), WriteUnlocked]
              && written == c.qty && err == c.err
    ensures (written, err) == Reply(fd, c)
  {
    if fd.kind == KindPipe {
      // TransmitFile does not work with pipes
      return 0, Some(Errno(ESPIPE));
    }
    var lockErr := fd.WriteLock();
    if lockErr.Some? {
      return 0, lockErr;
    }
    var o := fd.wop;
    o.qty := Uint32(n);
    o.handle := src;
    o.offset := OffsetLow(curpos);
    o.offsetHigh := OffsetHigh(curpos);
    var done, e := ExecIO(fd, c);
    fd.WriteUnlock();
    return done, e;
  }
}

/**
 * The eligibility and bookkeeping layer of the Windows send-file path
 * (net/sendfile_windows.go). Given the reader that a copy to a TCP
 * connection reads from, sendFile decides whether the bytes can be sent
 * straight from a file: a capped stream (`*io.LimitedReader`) is unwrapped
 * once, a bounded file view (`*io.SectionReader` over an `*os.File`) or a
 * plain `*os.File` yields the start position and the byte count, the
 * transfer primitive is called, and the reader's budget and position are
 * advanced by exactly the bytes sent.
 *
 * The readers are objects that sendFile updates in place; `Source` is their
 * value as the pure functions below see it. The answers of the operating
 * system (the two file seeks and the transfer's completion) are parameters.
 */
module Net {
  import opened Ints
  import opened Options
  import opened Syscall
  import Poll

  /** An `*os.File`: its OS handle and its seek position. */
  class File {
    const handle: Handle
    var pos: int64

    constructor (handle: Handle, pos: int64)
      ensures this.handle == handle && this.pos == pos
    {
      this.handle, this.pos := handle, pos;
    }

    /**
     * `f.Seek(0, io.SeekCurrent)`: the current position, or the error the
     * OS reports (`fault`).
     */
    method SeekCurrent(fault: Option<Error>) returns (ret: int64, err: Option<Error>)
      ensures err == fault
      ensures ret == if fault.None? then pos else 0
    {
      if fault.Some? {
        return 0, fault;
      }
      return pos, None;
    }

    /**
     * `f.Seek(offset, io.SeekStart)`: moves to `offset`, unless the OS
     * reports an error (`fault`), which leaves the position alone.
     */
    method SeekStart(offset: int64, fault: Option<Error>) returns (ret: int64, err: Option<Error>)
      modifies this
      ensures err == fault
      ensures pos == if fault.None? then offset else old(pos)
      ensures ret == if fault.None? then offset else 0
    {
      if fault.Some? {
        return 0, fault;
      }
      pos := offset;
      return offset, None;
    }
  }

  /** The `io.ReaderAt` under a section: an `*os.File` or anything else. */
  datatype ReaderAt = FileAt(f: File) | OtherReaderAt

  /**
   * An `*io.SectionReader`: the window [base, base + size) of a ReaderAt and
   * the current offset `off`, relative to base; the offset may lie past the
   * end of the window.
   */
  class SectionReader {
    const r: ReaderAt
    const base: int64
    const size: int64
    var off: int64

    /** The window is non-negative and the absolute offset stays within int64. */
    ghost predicate Valid()
      reads this
    {
      WindowOk(base, size, off)
    }

    constructor (r: ReaderAt, base: int64, size: int64)
      requires 0 <= base && 0 <= size
      ensures Valid() && this.r == r && this.base == base && this.size == size && off == 0
    {
      this.r, this.base, this.size, off := r, base, size, 0;
    }

    /**
     * `sr.Seek(delta, io.SeekCurrent)`: moves the offset by `delta` unless
     * the new absolute offset would fall before base, counting an int64
     * overflow of the absolute offset as falling before it.
     */
    method Seek(delta: int64) returns (ret: int64, err: Option<Error>)
      requires Valid()
      modifies this
      ensures Valid()
      ensures 0 <= old(off) + delta && base + old(off) + delta <= MAX_INT64 ==>
                off == old(off) + delta && ret == off && err == None
      ensures !(0 <= old(off) + delta && base + old(off) + delta <= MAX_INT64) ==>
                off == old(off) && ret == 0 && err == Some(ErrOffset)
    {
      var o := off + delta;
      if o < 0 || base + o > MAX_INT64 {
        return 0, Some(ErrOffset);
      }
      off := o;
      return o, None;
    }
  }

  /** An `*io.LimitedReader`: at most N more bytes are read from R. */
  class LimitedReader {
    var N: int64
    const R: Reader

    constructor (R: Reader, N: int64)
      ensures this.R == R && this.N == N
    {
      this.R, this.N := R, N;
    }
  }

  /** The dynamic type of the `io.Reader` handed to sendFile. */
  datatype Reader =
    | Limited(lr: LimitedReader)
    | Section(sr: SectionReader)
    | PlainFile(f: File)
    | Other

  /** A `*netFD`: the connection and its poll descriptor. */
  class NetFD {
    const pfd: Poll.FD

    constructor (pfd: Poll.FD)
      ensures this.pfd == pfd
    {
      this.pfd := pfd;
    }
  }

  /** A reader's state as sendFile sees it, unwrapping at most one cap. */
  datatype Source =
    | Capped(n: int64, inner: Source)                            // LimitedReader
    | View(base: int64, size: int64, off: int64, file: Option<Handle>) // SectionReader, and the handle of its file if it has one
    | Seekable(handle: Handle, pos: int64)                       // os.File
    | Opaque                                                     // anything else

  /** The objects whose state makes up `SourceOf(r)`. */
  function Objects(r: Reader): set<object>
  {
    match r
    case Limited(lr) => {lr} + ShallowObjects(lr.R)
    case _ => ShallowObjects(r)
  }

  function ShallowObjects(r: Reader): set<object>
  {
    match r
    case Section(sr) => {sr}
    case PlainFile(f) => {f}
    case _ => {}
  }

  /** The value of reader `r`. */
  function SourceOf(r: Reader): Source
    reads Objects(r)
  {
    match r
    case Limited(lr) => Capped(lr.N, Shallow(lr.R))
    case _ => Shallow(r)
  }

  /** A reader below the outer cap; a second LimitedReader is opaque to sendFile. */
  function Shallow(r: Reader): Source
    reads ShallowObjects(r)
  {
    match r
    case Section(sr) =>
      View(sr.base, sr.size, sr.off, match sr.r case FileAt(f) => Some(f.handle) case OtherReaderAt => None)
    case PlainFile(f) => Seekable(f.handle, f.pos)
    case _ => Opaque
  }

  /** The source below the outer cap, if any. */
  function Inner(s: Source): (r: Source)
    ensures WellFormed(s) ==> WellFormed(r)
    ensures !r.Capped? || s.Capped?
  {
    if s.Capped? then s.inner else s
  }

  /** The byte cap: the LimitedReader's budget, or 0 ("until end of file"). */
  function Cap(s: Source): int64
  {
    if s.Capped? then s.n else 0
  }

  /**
   * A section's base and size are non-negative, and its offset is
   * non-negative with the absolute offset `base + off` inside int64.
   */
  predicate WindowOk(base: int64, size: int64, off: int64)
  {
    0 <= base && 0 <= size && 0 <= off && base + off <= MAX_INT64
  }

  /** Every section in the source satisfies WindowOk, at every level. */
  predicate WellFormed(s: Source)
  {
    match s
    case Capped(_, inner) => WellFormed(inner)
    case View(base, size, off, _) => WindowOk(base, size, off)
    case _ => true
  }

  ghost predicate Valid(r: Reader)
    reads Objects(r)
  {
    WellFormed(SourceOf(r))
  }

  /** Sources sendFile can send from: a section over a file, or a file. */
  predicate FileBacked(s: Source)
  {
    (s.View? && s.file.Some?) || s.Seekable?
  }

  /** The absolute file position the next transfer starts from. */
  function Cursor(s: Source): int
  {
    match s
    case Capped(_, inner) => Cursor(inner)
    case View(base, _, off, _) => base + off
    case Seekable(_, pos) => pos
    case Opaque => 0
  }

  /** What sendFile decides to do before calling the transfer primitive. */
  datatype Decision =
    | Trivial                                      // (0, nil, true) with no I/O
    | Ineligible                                   // (0, nil, false) with no I/O
    | SeekFailed(err: Error)                       // (0, err, false) with no transfer
    | Request(handle: Handle, pos: int64, n: int64) // send n bytes (0: to end of file) from pos

  /**
   * Lines 24-58 of sendFile as written: the decision and the transfer
   * parameters for source `s`, where `seekFault` is what the OS answers to
   * the current-position seek of a plain file.
   */
  function Classify(s: Source, seekFault: Option<Error>): (p: Decision)
    requires WellFormed(s)
    // an exhausted cap is satisfied at once, and nothing else is
    ensures p.Trivial? <==> s.Capped? && s.n <= 0
    // only a section over a file or a file is eligible
    ensures p.Ineligible? <==> !(s.Capped? && s.n <= 0) && !FileBacked(Inner(s))
    ensures p.SeekFailed? <==> !(s.Capped? && s.n <= 0) && Inner(s).Seekable? && seekFault.Some?
    ensures p.SeekFailed? ==> p.err == seekFault.value
    // a section starts at base + off and sends the rest of the window, or the cap if smaller
    ensures p.Request? && Inner(s).View? ==>
              var v := Inner(s);
              && p.handle == v.file.value && p.pos == v.base + v.off
              && p.n <= v.size - v.off
              && (Cap(s) == 0 || Cap(s) > v.size - v.off ==> p.n == v.size - v.off)
              && (0 < Cap(s) <= v.size - v.off ==> p.n == Cap(s))
    // a file starts at its seek position and sends the cap (0: to end of file)
    ensures p.Request? && Inner(s).Seekable? ==>
              p.handle == Inner(s).handle && p.pos == Inner(s).pos && p.n == Cap(s)
    ensures p.Request? ==> p.pos == Cursor(s)
  {
    var n := Cap(s);
    var r := Inner(s);
    if s.Capped? && n <= 0 then Trivial
    else match r
      case View(base, size, off, file) =>
        if file.None? then Ineligible
        else
          var length := size - off;
          var pos := base + off;
          Request(file.value, pos, if n == 0 || n > length then length else n)
      case Seekable(handle, pos) =>
        if seekFault.Some? then SeekFailed(seekFault.value) else Request(handle, pos, n)
      case _ => Ineligible
  }

  /**
   * Classify corrected: a section with nothing left in its window (the count
   * comes out zero or negative) is satisfied at once instead of being sent
   * as a request whose count TransmitFile reads as "the rest of the file".
   */
  function Plan(s: Source, seekFault: Option<Error>): (p: Decision)
    requires WellFormed(s)
    // the same decision as the code, except for an empty section request
    ensures p != Classify(s, seekFault) ==>
              && p.Trivial? && Inner(s).View?
              && Classify(s, seekFault).Request? && Classify(s, seekFault).n <= 0
    // a section request is non-empty and lies inside the window
    ensures p.Request? && Inner(s).View? ==>
              && 0 < p.n
              && Inner(s).base <= p.pos
              && p.pos + p.n <= Inner(s).base + Inner(s).size
  {
    var p := Classify(s, seekFault);
    if p.Request? && Inner(s).View? && p.n <= 0 then Trivial else p
  }

  /**
   * As written, a section whose window is used up still reaches TransmitFile:
   * a 3000-byte window at offset 1000 of a 5000-byte file, after its 3000
   * bytes were sent, asks for 0 bytes from offset 4000, and TransmitFile
   * sends the 1000 bytes after the window.
   */
  lemma ExhaustedViewLeavesWindow()
    ensures var s := View(1000, 3000, 3000, Some(7));
            && Classify(s, None) == Request(7, 4000, 0)
            && Poll.TransmitEnd(4000, Uint32(0), 5000) == 5000 > 1000 + 3000
  {
  }

  /**
   * With the correction, every byte TransmitFile sends for a section lies
   * inside the section's window, for any file size, as long as the count
   * fits the 32-bit request (larger sections are documented as unsupported).
   */
  lemma PlanStaysInWindow(s: Source, seekFault: Option<Error>, fileSize: int)
    requires WellFormed(s) && Inner(s).View?
    requires Plan(s, seekFault).Request? && Plan(s, seekFault).n < TWO_32
    ensures Inner(s).base <= Plan(s, seekFault).pos
    ensures Poll.TransmitEnd(Plan(s, seekFault).pos, Uint32(Plan(s, seekFault).n), fileSize)
            <= Inner(s).base + Inner(s).size
  {
  }

  /**
   * Lines 65-72: the bookkeeping after a transfer of `done` bytes. The cap
   * is reduced by `done`; a section's offset, or else the file's position,
   * advances by `done`, the file's only if the OS accepts the seek
   * (`reseek`), the section's only if the new offset is valid.
   */
  function Consume(s: Source, done: int64, reseek: Option<Error>): (s': Source)
    requires WellFormed(s) && 0 <= done
    ensures WellFormed(s')
    // the shape, the window and the handles stay the same
    ensures s'.Capped? == s.Capped? && Inner(s').View? == Inner(s).View?
    ensures Inner(s').Seekable? == Inner(s).Seekable? && Inner(s').Opaque? == Inner(s).Opaque?
    ensures Inner(s).View? ==>
              Inner(s').base == Inner(s).base && Inner(s').size == Inner(s).size && Inner(s').file == Inner(s).file
    ensures Inner(s).Seekable? ==> Inner(s').handle == Inner(s).handle
    // the cap is charged exactly `done`
    ensures s.Capped? && MIN_INT64 <= s.n - done ==> s'.n == s.n - done
    // the position moves by exactly `done` when nothing fails
    ensures (Inner(s).View? || (Inner(s).Seekable? && reseek.None?)) && Cursor(s) + done <= MAX_INT64 ==>
              Cursor(s') == Cursor(s) + done
    ensures Inner(s).Seekable? && reseek.Some? ==> Cursor(s') == Cursor(s)
  {
    match s
    case Capped(n, inner) => Capped(Int64(n - done), Advance(inner, done, reseek))
    case _ => Advance(s, done, reseek)
  }

  /** The position part of Consume, below the cap. */
  function Advance(s: Source, done: int64, reseek: Option<Error>): Source
    requires WellFormed(s) && 0 <= done
  {
    match s
    case View(base, size, off, file) =>
      if base + off + done <= MAX_INT64 then View(base, size, off + done, file) else s
    case Seekable(handle, pos) =>
      if reseek.None? then Seekable(handle, Int64(pos + done)) else s
    case _ => s
  }

  /** The total of a run of transfer counts. */
  function Sum(ds: seq<uint32>): (total: int)
    ensures total >= 0
    ensures total == 0 <==> forall i :: 0 <= i < |ds| ==> ds[i] == 0
  {
    if ds == [] then 0 else ds[0] + Sum(ds[1..])
  }

  /** The source after successive successful calls that sent `ds[0]`, `ds[1]`, ... bytes. */
  function Replay(s: Source, ds: seq<uint32>): Source
    requires WellFormed(s)
    decreases |ds|
  {
    if ds == [] then s else Replay(Consume(s, ds[0], None), ds[1..])
  }

  /**
   * Over any number of successful calls, the source accounts for every byte
   * sent: its position advances, and its cap shrinks, by the total sent.
   */
  lemma {:induction false} ReplayAccounts(s: Source, ds: seq<uint32>)
    requires WellFormed(s) && FileBacked(Inner(s))
    requires Cursor(s) + Sum(ds) <= MAX_INT64
    requires s.Capped? ==> MIN_INT64 <= s.n - Sum(ds)
    ensures Cursor(Replay(s, ds)) == Cursor(s) + Sum(ds)
    ensures s.Capped? ==> Replay(s, ds).Capped? && Replay(s, ds).n == s.n - Sum(ds)
    decreases |ds|
  {
    if ds != [] {
      var s' := Consume(s, ds[0], None);
      assert FileBacked(Inner(s'));
      ReplayAccounts(s', ds[1..]);
    }
  }

  /**
   * End to end: the TransmitFile call that the transfer primitive submits for
   * a section request, once its offset halves are joined back, reads only
   * bytes inside the section's window.
   */
  lemma CallStaysInWindow(fd: Poll.FD, s: Source, seekFault: Option<Error>, fileSize: int)
    requires WellFormed(s) && Inner(s).View?
    requires Plan(s, seekFault).Request? && Plan(s, seekFault).n < TWO_32
    ensures var p := Plan(s, seekFault);
            var call := Poll.Call(fd, p.handle, p.pos, p.n);
            var start := Poll.JoinOffset(call.offset, call.offsetHigh);
            && call.file == Inner(s).file.value
            && Inner(s).base <= start
            && Poll.TransmitEnd(start, call.bytesToWrite, fileSize) <= Inner(s).base + Inner(s).size
  {
  }

  /**
   * The source after successive calls on `s` that send `ds[0]`, `ds[1]`, ...
   * bytes, each followed by a successful seek, stopping at the first call
   * that issues no transfer.
   */
  function Calls(s: Source, ds: seq<uint32>): Source
    requires WellFormed(s)
    decreases |ds|
  {
    if ds == [] || !Plan(s, None).Request? then s
    else Calls(Consume(s, ds[0], None), ds[1..])
  }

  /** In such a run, no call sends more than it asked for. */
  predicate Honest(s: Source, ds: seq<uint32>)
    requires WellFormed(s)
    decreases |ds|
  {
    ds == [] || !Plan(s, None).Request? ||
    (ds[0] <= Plan(s, None).n && Honest(Consume(s, ds[0], None), ds[1..]))
  }

  /**
   * However many calls a run makes on a section over a file, as long as no
   * call sends more than it asked for, the section keeps its window, its
   * offset never passes the window's end and a cap is never overdrawn.
   */
  lemma {:induction false} CallsStayInWindow(s: Source, ds: seq<uint32>)
    requires WellFormed(s) && Inner(s).View? && Inner(s).file.Some?
    requires Inner(s).off <= Inner(s).size && (s.Capped? ==> 0 <= s.n)
    requires Honest(s, ds)
    ensures Inner(Calls(s, ds)).View?
    ensures Inner(Calls(s, ds)).base == Inner(s).base && Inner(Calls(s, ds)).size == Inner(s).size
    ensures Inner(Calls(s, ds)).off <= Inner(s).size
    ensures s.Capped? ==> Calls(s, ds).Capped? && 0 <= Calls(s, ds).n
    decreases |ds|
  {
    if ds != [] && Plan(s, None).Request? {
      var p := Plan(s, None);
      var s' := Consume(s, ds[0], None);
      assert Cursor(s) == p.pos;
      if Cursor(s) + ds[0] <= MAX_INT64 {
        assert Cursor(s') == Cursor(s) + ds[0];
      }
      CallsStayInWindow(s', ds[1..]);
    }
  }

  /** Go's `wrapSyscallError`: tags a raw Errno with the failing call's name. */
  function WrapSyscallError(name: string, err: Error): Error
  {
    if err.Errno? then SyscallError(name, err) else err
  }

  /** What the operating system answers to the calls sendFile may make. */
  datatype OsReplies = OsReplies(
    seekCurrent: Option<Error>,   // f.Seek(0, io.SeekCurrent)
    transmit: Poll.Completion,    // the TransmitFile completion
    seekStart: Option<Error>)     // f.Seek(pos+done, io.SeekStart)

  /**
   * Lines 65-72: after a transfer of `done` bytes from `pos`, charges the cap
   * and moves the section's offset, or else the file's position, by `done`.
   * The section's seek result is dropped; the file's is returned.
   */
  method Settle(r: Reader, pos: int64, done: int64, reseek: Option<Error>) returns (err: Option<Error>)
    requires Valid(r) && 0 <= done
    requires FileBacked(Inner(SourceOf(r))) && pos == Cursor(SourceOf(r))
    modifies Objects(r)
    ensures Valid(r)
    ensures SourceOf(r) == Consume(old(SourceOf(r)), done, reseek)
    ensures err == (if Inner(old(SourceOf(r))).Seekable? then reseek else None)
  {
    var rd := r;
    if r.Limited? {
      r.lr.N := Int64(r.lr.N - done);
      rd := r.lr.R;
    }
    assert WellFormed(Shallow(rd));
    if rd.Section? {
      var _, _ := rd.sr.Seek(done);
      err := None;
    } else {
      var _, e := rd.f.SeekStart(Int64(pos + done), reseek);
      err := e;
    }
  }

  /**
   * `sendFile(fd, r)`: returns (written, err, handled). Proved against Plan
   * for the decision, Poll.Reply for the transfer and Consume for the
   * bookkeeping.
   */
  method SendFile(fd: NetFD, r: Reader, os: OsReplies)
    returns (written: int64, err: Option<Error>, handled: bool)
    requires Valid(r) && fd.pfd.Valid() && !fd.pfd.writeLocked
    modifies Objects(r), fd.pfd`writeLocked, fd.pfd`events, fd.pfd.wop
    ensures Valid(r) && fd.pfd.Valid() && !fd.pfd.writeLocked
    // no transfer: nothing changes
    ensures !old(Plan(SourceOf(r), os.seekCurrent)).Request? ==>
              var p := old(Plan(SourceOf(r), os.seekCurrent));
              && written == 0 && handled == p.Trivial?
              && err == (if p.SeekFailed? then Some(p.err) else None)
              && SourceOf(r) == old(SourceOf(r))
              && fd.pfd.events == old(fd.pfd.events) && unchanged(fd.pfd.wop)
    // a transfer: the request goes to the primitive unchanged
    ensures old(Plan(SourceOf(r), os.seekCurrent)).Request? ==>
              var p := old(Plan(SourceOf(r), os.seekCurrent));
              fd.pfd.events == old(fd.pfd.events)
                + (if Poll.Submits(fd.pfd)
                   then [Poll.WriteLocked, Poll.Transmitted(Poll.Call(fd.pfd, p.handle, p.pos, p.n)), Poll.WriteUnlocked]
                   else [])
    // ... a failed transfer is reported wrapped, not handled, and consumes nothing
    ensures old(Plan(SourceOf(r), os.seekCurrent)).Request? && Poll.Reply(fd.pfd, os.transmit).1.Some? ==>
              && written == 0 && !handled
              && err == Some(WrapSyscallError("transmitfile", Poll.Reply(fd.pfd, os.transmit).1.value))
              && SourceOf(r) == old(SourceOf(r))
    // ... a successful one is handled and consumes exactly what was sent
    ensures old(Plan(SourceOf(r), os.seekCurrent)).Request? && Poll.Reply(fd.pfd, os.transmit).1.None? ==>
              && written == Poll.Reply(fd.pfd, os.transmit).0 && handled
              && err == (if Inner(old(SourceOf(r))).Seekable? then os.seekStart else None)
              && SourceOf(r) == Consume(old(SourceOf(r)), written, os.seekStart)
  {
    var p := Plan(SourceOf(r), os.seekCurrent);
    var rd := if r.Limited? then r.lr.R else r;
    assert Inner(SourceOf(r)) == Shallow(rd);
    if p.Trivial? {
      return 0, None, true;
    } else if p.Ineligible? {
      return 0, None, false;
    }
    // a file's start is its current seek position
    var pos: int64;
    if rd.PlainFile? {
      var cur, serr := rd.f.SeekCurrent(os.seekCurrent);
      if serr.Some? {
        return 0, serr, false;
      }
      pos := cur;
    } else {
      pos := p.pos;
    }
    var done, e := Poll.SendFile(fd.pfd, p.handle, pos, p.n, os.transmit);
    if e.Some? {
      return 0, Some(WrapSyscallError("transmitfile", e.value)), false;
    }
    err := Settle(r, pos, done, os.seekStart);
    return done, err, true;
  }
}
